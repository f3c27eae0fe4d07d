/** When each account operation succeeds, what it answers, and what it makes of the account: read off the tables. */
module AccountOutcomes {
  import opened Base
  import opened Schema
  import opened Sql
  import opened Values
  import opened Service
  import opened OneTime
  import opened Logons
  import Accounts
  import Authn
  import LogonCodes

  // ---- the guards ----

  ghost predicate Live(t: State, k: AccountKey) {
    k in t.accounts && !t.accounts[k].deleted
  }

  predicate Acceptable(password: string) {
    8 <= |password| <= 72
  }

  ghost predicate IdTaken(t: State, id: Id) {
    exists k :: k in t.accounts && t.accounts[k].id == id
  }

  /** The first guard that fails. */
  ghost function Refusal(t: State, op: Accounts.Op): Option<Error> {
    match op
    case Registration(k, password, _, id, _) =>
      if !Acceptable(password) then Some(InvalidAccount)
      else if k in t.accounts || IdTaken(t, id) then Some(AccountDuplicate)
      else None
    case Verification(k, token) =>
      if !Live(t, k) then Some(AccountNotFound)
      else if t.accounts[k].verified || t.accounts[k].verification != Some(Sha256(token)) then Some(VerificationFailed)
      else None
    case Resending(k, _) =>
      if !Live(t, k) then Some(AccountNotFound)
      else if t.accounts[k].verified then Some(VerificationFailed)
      else None
    case Forgetting(k, _) => if !Live(t, k) then Some(AccountNotFound) else None
    case Resetting(k, token, password, _, _) =>
      if !Acceptable(password) then Some(InvalidAccount)
      else if !Live(t, k) then Some(AccountNotFound)
      else if k !in t.resets then Some(ResetTokenInvalid)
      else if t.resets[k].expires < t.now then Some(ResetTokenExpired)
      else if t.resets[k].hash != Sha256(token) then Some(ResetTokenInvalid)
      else None
    case Updating(k, current, password, _, _) =>
      if !Acceptable(password) then Some(InvalidAccount)
      else if !Live(t, k) then Some(AccountNotFound)
      else if t.accounts[k].password.of != current then Some(InvalidAccount)
      else None
    case Deletion(k, _) => if !Live(t, k) then Some(AccountNotFound) else None
  }

  // ---- what comes of it ----

  lemma RegisterOutcome(t: State, k: AccountKey, password: string, salt: nat, id: Id, token: Secret)
    ensures
      var refusal := Refusal(t, Accounts.Registration(k, password, salt, id, token));
      var row := Account(id, Bcrypt(salt, password), false, Some(Sha256(token)), true, false);
      Accounts.Register(t, k, password, salt, id, token) ==
      if refusal.Some? then Reply(t, Err(refusal.value))
      else Reply(t.(accounts := t.accounts[k := row]), Ok(SecretOf(token)))
  {
    assert AccountWithId(t, id).Some? <==> IdTaken(t, id);
    hide AccountWithId;
  }

  lemma VerifyOutcome(t: State, k: AccountKey, token: Secret)
    ensures
      var refusal := Refusal(t, Accounts.Verification(k, token));
      && Accounts.Verify(t, k, token).result == (if refusal.Some? then Err(refusal.value) else Ok(Nothing))
      && Accounts.Verify(t, k, token).state ==
         if refusal.Some? then t
         else t.(accounts := t.accounts[k := t.accounts[k].(verified := true, verification := None)])
  {
  }

  lemma ResendOutcome(t: State, k: AccountKey, token: Secret)
    ensures
      var refusal := Refusal(t, Accounts.Resending(k, token));
      && Accounts.Resend(t, k, token).result == (if refusal.Some? then Err(refusal.value) else Ok(SecretOf(token)))
      && Accounts.Resend(t, k, token).state ==
         if refusal.Some? then t
         else t.(accounts := t.accounts[k := t.accounts[k].(verification := Some(Sha256(token)))])
  {
  }

  lemma ForgotOutcome(c: Config, t: State, k: AccountKey, token: Secret)
    ensures
      var refusal := Refusal(t, Accounts.Forgetting(k, token));
      && Accounts.Forgot(c, t, k, token).result == (if refusal.Some? then Err(refusal.value) else Ok(SecretOf(token)))
      && Accounts.Forgot(c, t, k, token).state ==
         if refusal.Some? then t
         else t.(resets := t.resets[k := PasswordReset(Sha256(token), t.now + c.resetExpiry)])
  {
  }

  /**
   * A credential change that no guard refuses fails only with its connection; its effect is Accounts'
   * and Finality's.
   */
  lemma ChangeOutcome(c: Config, t: State, op: Accounts.Op)
    requires Accounts.Credential(op)
    ensures
      var (r, refusal) := (Accounts.Step(c, t, op), Refusal(t, op));
      && (refusal.Some? ==> r == Reply(t, Err(refusal.value)))
      && (refusal.None? ==> r.result == Ok(Nothing) || (r == Reply(t, Err(Driver)) && op.fault.Some?))
  {
    if Refusal(t, op).None? {
      ChangeIsItsTransaction(c, t, op);
      Accounts.TransactionIsAllOrNothing(t, op.k, Accounts.BodyOf(c, op), op.fault);
      FailsAsDriver(t, op.k, Accounts.BodyOf(c, op), op.fault, |Accounts.BodyOf(c, op)|);
    }
    hide Accounts.WithTransaction, Accounts.RunBody;
  }

  lemma ChangeIsItsTransaction(c: Config, t: State, op: Accounts.Op)
    requires Accounts.Credential(op) && Refusal(t, op).None?
    ensures op.k in t.accounts && Accounts.OnePassword(Accounts.BodyOf(c, op))
    ensures
      Accounts.Step(c, t, op) == Accounts.Changed(Accounts.WithTransaction(t, op.k, Accounts.BodyOf(c, op), op.fault))
  {
    Accounts.BodyHolds(c, op);
    hide Accounts.WithTransaction, Accounts.Revocations, Accounts.OnePassword;
  }

  lemma {:induction false} FailsAsDriver(
    t: State, k: AccountKey, body: seq<Accounts.Change>, fault: Accounts.Fault, i: nat)
    requires i <= |body| && k in t.accounts
    ensures
      var r := Accounts.RunBody(t, k, body, fault, i);
      k in r.state.accounts && (r.result.Err? ==> r.result == Err(Driver))
  {
    hide Accounts.Exec;
    if i > 0 {
      FailsAsDriver(t, k, body, fault, i - 1);
      Accounts.ExecAccount(Accounts.RunBody(t, k, body, fault, i - 1).state, k, body[i - 1]);
    }
  }

  /** The secret of a registration, a resending or a forgotten password; nothing else is told. */
  function Told(op: Accounts.Op): Value {
    match op
    case Registration(_, _, _, _, token) => SecretOf(token)
    case Resending(_, token) => SecretOf(token)
    case Forgetting(_, token) => SecretOf(token)
    case _ => Nothing
  }

  /**
   * Every account operation succeeds exactly when no guard refuses it, a credential change also
   * needing its connection; a failure changes nothing, and outside credential changes a success
   * writes the account's row (AccountFollows) and, for a forgotten password, the reset slot alone.
   */
  lemma OutcomeIff(c: Config, t: State, op: Accounts.Op)
    ensures
      var (r, refusal) := (Step(c, t, OnAccounts(op)), Refusal(t, op));
      var slot := PasswordReset(Sha256(if op.Forgetting? then op.token else 0), t.now + c.resetExpiry);
      && (refusal.Some? ==> r == Reply(t, Err(refusal.value)))
      && (refusal.None? && !Accounts.Credential(op) ==>
            && r.result == Ok(Told(op))
            && r.state == t.(accounts := r.state.accounts, resets := r.state.resets)
            && r.state.resets == if op.Forgetting? then t.resets[op.k := slot] else t.resets)
      && (refusal.None? && Accounts.Credential(op) ==>
            r.result == Ok(Told(op)) || (r == Reply(t, Err(Driver)) && op.fault.Some?))
  {
    assert Step(c, t, OnAccounts(op)) == Accounts.Step(c, t, op);
    if Accounts.Credential(op) {
      ChangeOutcome(c, t, op);
    } else {
      PlainOutcome(c, t, op);
    }
    hide Accounts.Step, Step, Refusal;
  }

  lemma PlainOutcome(c: Config, t: State, op: Accounts.Op)
    requires !Accounts.Credential(op)
    ensures
      var (r, refusal) := (Accounts.Step(c, t, op), Refusal(t, op));
      var slot := PasswordReset(Sha256(if op.Forgetting? then op.token else 0), t.now + c.resetExpiry);
      if refusal.Some? then r == Reply(t, Err(refusal.value))
      else
        && r.result == Ok(Told(op))
        && r.state == t.(accounts := r.state.accounts, resets := r.state.resets)
        && r.state.resets == if op.Forgetting? then t.resets[op.k := slot] else t.resets
  {
    match op
    case Registration(k, password, salt, id, token) => RegisterOutcome(t, k, password, salt, id, token);
    case Verification(k, token) => VerifyOutcome(t, k, token);
    case Resending(k, token) => ResendOutcome(t, k, token);
    case Forgetting(k, token) => ForgotOutcome(c, t, k, token);
    hide Accounts.Register, Accounts.Verify, Accounts.Resend, Accounts.Forgot, Refusal;
  }

  // ---- the account, whatever the operation ----

  /** The row of the account after the operation, from its row before and the operation's arguments. */
  ghost function AccountAfter(c: Config, t: State, op: Op, k: AccountKey): Option<Account> {
    var before := if k in t.accounts then Some(t.accounts[k]) else None;
    if Step(c, t, op).result.Err? then before
    else
      match op
      case OnAccounts(Registration(l, password, salt, id, token)) =>
        if l == k then Some(Account(id, Bcrypt(salt, password), false, Some(Sha256(token)), true, false)) else before
      case OnAccounts(Verification(l, _)) =>
        if l == k && before.Some? then Some(before.value.(verified := true, verification := None)) else before
      case OnAccounts(Resending(l, token)) =>
        if l == k && before.Some? then Some(before.value.(verification := Some(Sha256(token)))) else before
      case OnAccounts(Resetting(l, _, password, salt, _)) =>
        if l == k && before.Some? then Some(before.value.(password := Bcrypt(salt, password))) else before
      case OnAccounts(Updating(l, _, password, salt, _)) =>
        if l == k && before.Some? then Some(before.value.(password := Bcrypt(salt, password))) else before
      case OnAccounts(Deletion(l, _)) =>
        if l == k && before.Some? then Some(before.value.(deleted := true)) else before
      case OnCodes(CodeLogon(l, _, _, _, _)) =>
        if l == k && before.Some? then Some(Proven(before.value)) else before
      case _ => before
  }

  ghost predicate RowIs(u: State, k: AccountKey, row: Option<Account>) {
    if row.Some? then k in u.accounts && u.accounts[k] == row.value else k !in u.accounts
  }

  lemma PlainFollows(c: Config, t: State, op: Accounts.Op, k: AccountKey)
    requires !Accounts.Credential(op)
    ensures RowIs(Step(c, t, OnAccounts(op)).state, k, AccountAfter(c, t, OnAccounts(op), k))
  {
    match op
    case Registration(l, password, salt, id, token) => RegisterOutcome(t, l, password, salt, id, token);
    case Verification(l, token) => VerifyOutcome(t, l, token);
    case Resending(l, token) => ResendOutcome(t, l, token);
    case Forgetting(l, token) => ForgotOutcome(c, t, l, token);
    hide Accounts.Register, Accounts.Verify, Accounts.Resend, Accounts.Forgot;
  }

  /** The account rows of the others are left out of a credential change. */
  lemma ChangeFollows(c: Config, t: State, op: Accounts.Op, k: AccountKey)
    requires Accounts.Credential(op)
    ensures RowIs(Step(c, t, OnAccounts(op)).state, k, AccountAfter(c, t, OnAccounts(op), k))
  {
    var u := Step(c, t, OnAccounts(op)).state;
    assert Step(c, t, OnAccounts(op)) == Accounts.Step(c, t, op);
    Accounts.CredentialChangeIsAllOrNothing(c, t, op);
    if Accounts.Step(c, t, op).result.Ok? {
      Accounts.CommittedRanItsBody(c, t, op);
      if k != op.k { RestIsSame(t.accounts, u.accounts, op.k, k); }
    }
    hide Accounts.Step, Accounts.OidcConfined, Accounts.Revoked, Accounts.WithTransaction;
  }

  lemma RestIsSame(m: map<AccountKey, Account>, n: map<AccountKey, Account>, l: AccountKey, k: AccountKey)
    requires m - {l} == n - {l} && k != l
    ensures (k in m <==> k in n) && (k in m ==> m[k] == n[k])
  {
    assert k in m <==> k in m - {l};
    assert k in n <==> k in n - {l};
    assert k in m ==> (m - {l})[k] == (n - {l})[k];
  }

  lemma CodesFollow(c: Config, t: State, op: LogonCodes.Op, k: AccountKey)
    ensures RowIs(Step(c, t, OnCodes(op)).state, k, AccountAfter(c, t, OnCodes(op), k))
  {
    if op.CodeLogon? {
      CodeLogonIff(c, t, op.k, op.client, op.code, op.accessJti, op.refreshJti);
      RefusalFirst(c, t, op.k, op.code);
      hide CodeRefusal, OnlyAttemptIs, WrongCode, LogonCodes.Step;
    } else {
      RequestLeavesAccounts(c, t, op.k, op.code, op.salt);
      hide LogonCodes.Request;
    }
  }

  lemma RefusalFirst(c: Config, t: State, k: AccountKey, code: string)
    ensures CodeRefusal(c, t, k, code).None? ==> k in t.accounts
  {
  }

  lemma RequestLeavesAccounts(c: Config, t: State, k: AccountKey, code: string, salt: nat)
    ensures LogonCodes.Request(c, t, k, code, salt).state.accounts == t.accounts
  {
  }

  /**
   * For every operation of the service and every account: its row afterwards is its row before with
   * the columns set that the operation is for, and only when it succeeds.
   */
  lemma AccountFollows(c: Config, t: State, op: Op, k: AccountKey)
    ensures RowIs(Step(c, t, op).state, k, AccountAfter(c, t, op, k))
  {
    if op.OnAccounts? && Accounts.Credential(op.account) {
      ChangeFollows(c, t, op.account, k);
    } else if op.OnAccounts? {
      PlainFollows(c, t, op.account, k);
    } else if op.OnCodes? {
      CodesFollow(c, t, op.code, k);
    } else {
      OthersKeepAccounts(c, t, op);
      OthersAre(c, t, op, k);
    }
    hide Step, AccountAfter;
  }

  lemma OthersAre(c: Config, t: State, op: Op, k: AccountKey)
    requires !op.OnAccounts? && !op.OnCodes?
    ensures AccountAfter(c, t, op, k) == if k in t.accounts then Some(t.accounts[k]) else None
  {
    hide Step;
  }

  // ---- along a run: the password ----

  /** The password the operation gives the account, if it does. */
  ghost function PasswordSet(c: Config, t: State, op: Op, k: AccountKey): Option<string> {
    if op.OnAccounts? && op.account.k == k && Step(c, t, op).result.Ok? then
      match op.account
      case Registration(_, password, _, _, _) => Some(password)
      case Resetting(_, _, password, _, _) => Some(password)
      case Updating(_, _, password, _, _) => Some(password)
      case _ => None
    else None
  }

  /** The last password registered, reset or changed. */
  ghost function LastPassword(c: Config, t: State, ops: seq<Op>, k: AccountKey, before: Option<string>): Option<string>
    decreases |ops|
  {
    if ops == [] then before
    else
      var given := PasswordSet(c, t, ops[0], k);
      LastPassword(c, Step(c, t, ops[0]).state, ops[1..], k, if given.Some? then given else before)
  }

  ghost predicate PasswordIs(t: State, k: AccountKey, last: Option<string>) {
    k in t.accounts ==> last.Some? && t.accounts[k].password.of == last.value
  }

  lemma PasswordMoves(c: Config, t: State, op: Op, k: AccountKey, before: Option<string>)
    requires PasswordIs(t, k, before)
    ensures
      var given := PasswordSet(c, t, op, k);
      PasswordIs(Step(c, t, op).state, k, if given.Some? then given else before)
  {
    AccountFollows(c, t, op, k);
    hide Step;
  }

  lemma {:induction false} StoredPasswordIsTheLast(
    c: Config, t: State, ops: seq<Op>, k: AccountKey, before: Option<string>)
    requires PasswordIs(t, k, before)
    ensures PasswordIs(Run(c, t, ops), k, LastPassword(c, t, ops, k, before))
    decreases |ops|
  {
    hide Step, PasswordIs, PasswordSet;
    if ops != [] {
      PasswordMoves(c, t, ops[0], k, before);
      var given := PasswordSet(c, t, ops[0], k);
      StoredPasswordIsTheLast(c, Step(c, t, ops[0]).state, ops[1..], k, if given.Some? then given else before);
    }
  }

  /**
   * Only the last password registered, reset or changed logs on: a logon in any later state succeeds
   * exactly with that one, while the guards before the comparison let it through.
   */
  lemma OnlyTheLastPasswordLogsOn(
    c: Config, t: State, ops: seq<Op>, k: AccountKey, before: Option<string>, client: ClientId, password: string,
    a: Id, r: Id)
    requires PasswordIs(t, k, before)
    ensures
      var u, last := Run(c, t, ops), LastPassword(c, t, ops, k, before);
      Step(c, u, OnAuthn(Authn.Logon(k, client, password, a, r))).result.Ok? <==>
      PasswordGuard(u, k).None? && last == Some(password)
  {
    StoredPasswordIsTheLast(c, t, ops, k, before);
    PasswordLogonIff(c, Run(c, t, ops), k, client, password, a, r);
    GuardedIsThere(Run(c, t, ops), k);
    hide Run, Step, LastPassword, PasswordGuard, OnlyAttemptIs, AttemptAfter, WrongPassword, Missed;
  }

  lemma GuardedIsThere(t: State, k: AccountKey)
    ensures PasswordGuard(t, k).None? ==> k in t.accounts
  {
  }

  // ---- along a run: verification ----

  /** Verified accounts have no token left to verify with. */
  ghost predicate Settled(t: State) {
    forall k :: k in t.accounts && t.accounts[k].verified ==> t.accounts[k].verification.None?
  }

  lemma ResendsUnverified(c: Config, t: State, k: AccountKey, token: Secret)
    requires Step(c, t, OnAccounts(Accounts.Resending(k, token))).result.Ok?
    ensures k in t.accounts && !t.accounts[k].verified
  {
    ResendOutcome(t, k, token);
    hide Accounts.Resend;
  }

  lemma StepSettles(c: Config, t: State, op: Op)
    requires Settled(t)
    ensures Settled(Step(c, t, op).state)
  {
    var u := Step(c, t, op).state;
    if op.OnAccounts? && op.account.Resending? && Step(c, t, op).result.Ok? {
      ResendsUnverified(c, t, op.account.k, op.account.token);
    }
    hide Step;
    forall k | k in u.accounts && u.accounts[k].verified ensures u.accounts[k].verification.None? {
      AccountFollows(c, t, op, k);
    }
  }

  lemma {:induction false} RunSettles(c: Config, t: State, ops: seq<Op>)
    requires Settled(t)
    ensures Settled(Run(c, t, ops))
    decreases |ops|
  {
    hide Step, Settled;
    if ops != [] {
      StepSettles(c, t, ops[0]);
      RunSettles(c, Step(c, t, ops[0]).state, ops[1..]);
    }
  }

  lemma {:induction false} StaysVerified(c: Config, t: State, ops: seq<Op>, k: AccountKey)
    requires IsVerified(t, k)
    ensures IsVerified(Run(c, t, ops), k)
    decreases |ops|
  {
    hide Step, IsVerified, TokenIssued, Verified;
    if ops != [] {
      VerificationSlot(c, t, ops[0], k);
      StaysVerified(c, Step(c, t, ops[0]).state, ops[1..], k);
    }
  }

  /**
   * A code logon proves the mailbox for good: the account is verified with no token left, a
   * password logon no longer stops at its verification, and no verification token, earlier or
   * later, works in any later state.
   */
  lemma CodeLogonVerifiesForGood(
    c: Config, t: State, k: AccountKey, client: ClientId, code: string, a: Id, r: Id, ops: seq<Op>, token: Secret)
    requires Settled(t) && Step(c, t, OnCodes(LogonCodes.CodeLogon(k, client, code, a, r))).result.Ok?
    ensures
      var u := Run(c, Step(c, t, OnCodes(LogonCodes.CodeLogon(k, client, code, a, r))).state, ops);
      && k in u.accounts && u.accounts[k].verified && u.accounts[k].verification.None?
      && PasswordGuard(u, k) != Some(AccountNotVerified)
      && Step(c, u, OnAccounts(Accounts.Verification(k, token))).result.Err?
  {
    var op := OnCodes(LogonCodes.CodeLogon(k, client, code, a, r));
    var v := Step(c, t, op).state;
    var u := Run(c, v, ops);
    CodeLogonIff(c, t, k, client, code, a, r);
    RefusalFirst(c, t, k, code);
    assert v.accounts[k] == Proven(t.accounts[k]);
    StepSettles(c, t, op);
    RunSettles(c, v, ops);
    StaysVerified(c, v, ops, k);
    VerifyOutcome(u, k, token);
    hide Run, LogonCodes.Step, CodeRefusal, OnlyAttemptIs, AttemptAfter, WrongCode, Accounts.Verify, Settled;
    assert u.accounts[k].verification.None? by { SettledAt(u, k); }
  }

  lemma SettledAt(t: State, k: AccountKey)
    requires Settled(t) && IsVerified(t, k)
    ensures t.accounts[k].verification.None?
  {
  }
}
