/** One-time secrets: logon codes, reset tokens and verification tokens, over whole runs. */
module OneTime {
  import opened Base
  import opened Schema
  import opened Sql
  import opened Values
  import opened Service
  import opened Growth
  import opened Frames
  import Accounts
  import Authn
  import LogonCodes
  import Oidc

  // ---- what happens to a slot ----

  ghost predicate Requested(c: Config, t: State, op: Op, k: AccountKey) {
    op.OnCodes? && op.code.RequestCode? && op.code.k == k && Step(c, t, op).result.Ok?
  }

  ghost predicate LoggedOn(c: Config, t: State, op: Op, k: AccountKey) {
    op.OnCodes? && op.code.CodeLogon? && op.code.k == k && Step(c, t, op).result.Ok?
  }

  ghost predicate Forgot(c: Config, t: State, op: Op, k: AccountKey) {
    op.OnAccounts? && op.account.Forgetting? && op.account.k == k && Step(c, t, op).result.Ok?
  }

  ghost predicate WasReset(c: Config, t: State, op: Op, k: AccountKey) {
    op.OnAccounts? && op.account.Resetting? && op.account.k == k && Step(c, t, op).result.Ok?
  }

  ghost predicate KeepsOrDrops<V>(k: AccountKey, before: map<AccountKey, V>, after: map<AccountKey, V>) {
    k in after ==> k in before && after[k] == before[k]
  }

  lemma CodeGateKeepsCodes(t: State, k: AccountKey, code: string)
    ensures LogonCodes.Gate(t, k, code).state.codes == t.codes && LogonCodes.Gate(t, k, code).state.now == t.now
    ensures LogonCodes.Gate(t, k, code).result.Ok? ==>
              k in t.codes && t.codes[k].hash == LogonCodes.Gate(t, k, code).result.value.1 &&
                t.now <= t.codes[k].expires
  {
    GateFrame(t, k);
    hide Authn.CheckLockout, ValidCode, Authn.GateLogon;
  }

  lemma SpendDropsCode(t: State, k: AccountKey, account: Account)
    ensures LogonCodes.Spend(t, k, account).codes == t.codes - {k}
  {
  }

  /** A code logon that succeeds presents the stored code in time, and burns it; one that fails leaves it. */
  lemma CodeLogonSpends(c: Config, t: State, k: AccountKey, client: ClientId, code: string, a: Id, r: Id)
    ensures
      var reply := LogonCodes.Authenticate(c, t, k, client, code, a, r);
      && (reply.result.Ok? ==>
            && k in t.codes && BcryptVerify(t.codes[k].hash, code) && t.now <= t.codes[k].expires
            && reply.state.codes == t.codes - {k})
      && (reply.result.Err? ==> reply.state.codes == t.codes)
  {
    var gate := LogonCodes.Gate(t, k, code);
    CodeGateKeepsCodes(t, k, code);
    CountFrame(c, gate.state, k);
    if gate.result.Ok? { SpendDropsCode(gate.state, k, gate.result.value.0); }
    hide LogonCodes.Gate, LogonCodes.Spend, Authn.CountFailure, Authn.Issue, BcryptVerify;
  }

  lemma RequestStores(c: Config, t: State, k: AccountKey, code: string, salt: nat)
    ensures
      var reply := LogonCodes.Request(c, t, k, code, salt);
      reply.state.codes ==
        if reply.result.Ok? then t.codes[k := LogonCode(Bcrypt(salt, code), t.now + c.codeExpiry)] else t.codes
  {
    hide ReadAccount;
  }

  /** The code slot of an account, across any operation. */
  lemma CodeSlot(c: Config, t: State, op: Op, k: AccountKey)
    ensures
      var u := Step(c, t, op).state;
      if Requested(c, t, op, k)
        then k in u.codes && u.codes[k] == LogonCode(Bcrypt(op.code.salt, op.code.code), t.now + c.codeExpiry)
      else if LoggedOn(c, t, op, k) then
        k in t.codes && k !in u.codes && BcryptVerify(t.codes[k].hash, op.code.code) && t.now <= t.codes[k].expires
      else KeepsOrDrops(k, t.codes, u.codes)
  {
    if !TouchesCodes(op) { StepFrame(c, t, op); hide Step; }
    else if op.OnCodes? {
      var o := op.code;
      if o.CodeLogon? { CodeLogonSpends(c, t, o.k, o.client, o.code, o.accessJti, o.refreshJti); }
      else { RequestStores(c, t, o.k, o.code, o.salt); }
      hide LogonCodes.Authenticate, LogonCodes.Request, BcryptVerify;
    } else {
      SweepKeepsOrDrops(t, k);
      hide SweepCodes;
    }
  }

  lemma SweepKeepsOrDrops(t: State, k: AccountKey)
    ensures KeepsOrDrops(k, t.codes, SweepCodes(t).codes) && KeepsOrDrops(k, t.resets, SweepResets(t).resets)
  {
  }

  lemma ForgotStores(c: Config, t: State, k: AccountKey, token: Secret)
    ensures
      var reply := Accounts.Forgot(c, t, k, token);
      reply.state.resets ==
        if reply.result.Ok? then t.resets[k := PasswordReset(Sha256(token), t.now + c.resetExpiry)] else t.resets
  {
    hide Accounts.ReadLive;
  }

  lemma ExecKeepsResets(t: State, k: AccountKey, change: Accounts.Change, l: AccountKey)
    ensures KeepsOrDrops(l, t.resets, Accounts.Exec(t, k, change).state.resets)
  {
  }

  lemma {:induction false} BodyKeepsResets(
    t: State, k: AccountKey, body: seq<Accounts.Change>, fault: Accounts.Fault, i: nat, l: AccountKey)
    requires i <= |body|
    ensures KeepsOrDrops(l, t.resets, Accounts.RunBody(t, k, body, fault, i).state.resets)
  {
    if i > 0 {
      BodyKeepsResets(t, k, body, fault, i - 1, l);
      ExecKeepsResets(Accounts.RunBody(t, k, body, fault, i - 1).state, k, body[i - 1], l);
      hide Accounts.Exec;
    }
  }

  lemma ResetNeedsToken(c: Config, t: State, op: Accounts.Op)
    requires op.Resetting? && Accounts.Step(c, t, op).result.Ok?
    ensures op.k in t.resets && t.resets[op.k].hash == Sha256(op.token) && t.now <= t.resets[op.k].expires
  {
    hide Accounts.WithTransaction, Accounts.ReadLive;
  }

  lemma CredentialResets(c: Config, t: State, op: Accounts.Op, l: AccountKey)
    requires Accounts.Credential(op)
    ensures
      var r := Accounts.Step(c, t, op);
      && KeepsOrDrops(l, t.resets, r.state.resets)
      && (op.Resetting? && r.result.Ok? ==> op.k !in r.state.resets)
  {
    Accounts.CredentialChangeIsAllOrNothing(c, t, op);
    if Accounts.Step(c, t, op).result.Ok? {
      Accounts.CommittedRanItsBody(c, t, op);
      BodyKeepsResets(t, op.k, Accounts.BodyOf(c, op), op.fault, |Accounts.BodyOf(c, op)|, l);
    }
    hide Accounts.Step, Accounts.RunBody;
  }

  /** The reset slot of an account, across any operation. */
  lemma ResetSlot(c: Config, t: State, op: Op, k: AccountKey)
    ensures
      var u := Step(c, t, op).state;
      if Forgot(c, t, op, k)
        then k in u.resets && u.resets[k] == PasswordReset(Sha256(op.account.token), t.now + c.resetExpiry)
      else if WasReset(c, t, op, k) then
        k in t.resets && k !in u.resets && t.resets[k].hash == Sha256(op.account.token) && t.now <= t.resets[k].expires
      else KeepsOrDrops(k, t.resets, u.resets)
  {
    if !TouchesResets(op) { StepFrame(c, t, op); hide Step; }
    else if op.OnAccounts? {
      var o := op.account;
      if o.Forgetting? {
        ForgotStores(c, t, o.k, o.token);
        hide Accounts.Forgot;
      } else {
        CredentialResets(c, t, o, k);
        if o.Resetting? && Accounts.Step(c, t, o).result.Ok? { ResetNeedsToken(c, t, o); }
        hide Accounts.Step;
      }
    } else {
      SweepKeepsOrDrops(t, k);
      hide SweepResets;
    }
  }

  // ---- conservation ----

  ghost function Requests(c: Config, t: State, ops: seq<Op>, k: AccountKey): nat
    decreases |ops|
  {
    if ops == [] then 0
      else (if Requested(c, t, ops[0], k) then 1 else 0) + Requests(c, Step(c, t, ops[0]).state, ops[1..], k)
  }

  ghost function CodeLogons(c: Config, t: State, ops: seq<Op>, k: AccountKey): nat
    decreases |ops|
  {
    if ops == [] then 0
      else (if LoggedOn(c, t, ops[0], k) then 1 else 0) + CodeLogons(c, Step(c, t, ops[0]).state, ops[1..], k)
  }

  ghost function Forgets(c: Config, t: State, ops: seq<Op>, k: AccountKey): nat
    decreases |ops|
  {
    if ops == [] then 0
      else (if Forgot(c, t, ops[0], k) then 1 else 0) + Forgets(c, Step(c, t, ops[0]).state, ops[1..], k)
  }

  ghost function Resets(c: Config, t: State, ops: seq<Op>, k: AccountKey): nat
    decreases |ops|
  {
    if ops == [] then 0
      else (if WasReset(c, t, ops[0], k) then 1 else 0) + Resets(c, Step(c, t, ops[0]).state, ops[1..], k)
  }

  function Filled<V>(slots: map<AccountKey, V>, k: AccountKey): nat {
    if k in slots then 1 else 0
  }

  /**
   * Along any run, code logons that succeed, plus one if a code is stored, never exceed the codes
   * requested (and the one there at the start).
   */
  lemma {:induction false} CodesAreConserved(c: Config, t: State, ops: seq<Op>, k: AccountKey)
    ensures CodeLogons(c, t, ops, k) + Filled(Run(c, t, ops).codes, k) <= Requests(c, t, ops, k) + Filled(t.codes, k)
    decreases |ops|
  {
    hide Step, BcryptVerify;
    if ops != [] {
      CodeSlot(c, t, ops[0], k);
      CodesAreConserved(c, Step(c, t, ops[0]).state, ops[1..], k);
    }
  }

  /** ... and likewise resets against forgotten passwords. */
  lemma {:induction false} ResetsAreConserved(c: Config, t: State, ops: seq<Op>, k: AccountKey)
    ensures Resets(c, t, ops, k) + Filled(Run(c, t, ops).resets, k) <= Forgets(c, t, ops, k) + Filled(t.resets, k)
    decreases |ops|
  {
    hide Step;
    if ops != [] {
      ResetSlot(c, t, ops[0], k);
      ResetsAreConserved(c, Step(c, t, ops[0]).state, ops[1..], k);
    }
  }

  // ---- only the latest works, and only in time ----

  /** The last code requested for the account, and when. */
  ghost function LastCode(
    c: Config, t: State, ops: seq<Op>, k: AccountKey, before: Option<(string, Time)>): Option<(string, Time)>
    decreases |ops|
  {
    if ops == [] then before
    else
      LastCode(c, Step(c, t, ops[0]).state, ops[1..], k,
               if Requested(c, t, ops[0], k) then Some((ops[0].code.code, t.now)) else before)
  }

  ghost predicate CodeIs(c: Config, t: State, k: AccountKey, last: Option<(string, Time)>) {
    k in t.codes ==>
      last.Some? && t.codes[k].hash.of == last.value.0 && t.codes[k].expires == last.value.1 + c.codeExpiry
  }

  lemma {:induction false} StoredCodeIsTheLast(
    c: Config, t: State, ops: seq<Op>, k: AccountKey, before: Option<(string, Time)>)
    requires CodeIs(c, t, k, before)
    ensures CodeIs(c, Run(c, t, ops), k, LastCode(c, t, ops, k, before))
    decreases |ops|
  {
    hide Step, BcryptVerify;
    if ops != [] {
      CodeSlot(c, t, ops[0], k);
      StoredCodeIsTheLast(c, Step(c, t, ops[0]).state, ops[1..], k,
                          if Requested(c, t, ops[0], k) then Some((ops[0].code.code, t.now)) else before);
    }
  }

  /** A code logs on only if it is the last one requested, and no later than its expiry. */
  lemma {:induction false} OnlyTheLastCodeWorks(c: Config, t: State, ops: seq<Op>, op: Op, k: AccountKey)
    requires k !in t.codes && LoggedOn(c, Run(c, t, ops), op, k)
    ensures
      var last := LastCode(c, t, ops, k, None);
      last.Some? && op.code.code == last.value.0 && Run(c, t, ops).now <= last.value.1 + c.codeExpiry
  {
    StoredCodeIsTheLast(c, t, ops, k, None);
    CodeSlot(c, Run(c, t, ops), op, k);
    hide Run, Step, LastCode, LoggedOn;
    assert op.code.CodeLogon? by {
      assert LoggedOn(c, Run(c, t, ops), op, k);
      LoggedOnIsLogon(c, Run(c, t, ops), op, k);
    }
  }

  lemma LoggedOnIsLogon(c: Config, t: State, op: Op, k: AccountKey)
    requires LoggedOn(c, t, op, k)
    ensures op.OnCodes? && op.code.CodeLogon? && !Requested(c, t, op, k)
  {
    hide Step;
  }

  /** The last reset token handed out for the account, and when. */
  ghost function LastReset(
    c: Config, t: State, ops: seq<Op>, k: AccountKey, before: Option<(Secret, Time)>): Option<(Secret, Time)>
    decreases |ops|
  {
    if ops == [] then before
    else
      LastReset(c, Step(c, t, ops[0]).state, ops[1..], k,
                if Forgot(c, t, ops[0], k) then Some((ops[0].account.token, t.now)) else before)
  }

  ghost predicate ResetIs(c: Config, t: State, k: AccountKey, last: Option<(Secret, Time)>) {
    k in t.resets ==> last.Some? && t.resets[k] == PasswordReset(Sha256(last.value.0), last.value.1 + c.resetExpiry)
  }

  lemma {:induction false} StoredResetIsTheLast(
    c: Config, t: State, ops: seq<Op>, k: AccountKey, before: Option<(Secret, Time)>)
    requires ResetIs(c, t, k, before)
    ensures ResetIs(c, Run(c, t, ops), k, LastReset(c, t, ops, k, before))
    decreases |ops|
  {
    hide Step;
    if ops != [] {
      ResetSlot(c, t, ops[0], k);
      StoredResetIsTheLast(c, Step(c, t, ops[0]).state, ops[1..], k,
                           if Forgot(c, t, ops[0], k) then Some((ops[0].account.token, t.now)) else before);
    }
  }

  /** A reset succeeds only with the last token handed out, and no later than its expiry. */
  lemma OnlyTheLastResetTokenWorks(c: Config, t: State, ops: seq<Op>, op: Op, k: AccountKey)
    requires k !in t.resets && WasReset(c, Run(c, t, ops), op, k)
    ensures
      var last := LastReset(c, t, ops, k, None);
      last.Some? && op.account.token == last.value.0 && Run(c, t, ops).now <= last.value.1 + c.resetExpiry
  {
    StoredResetIsTheLast(c, t, ops, k, None);
    ResetSlot(c, Run(c, t, ops), op, k);
    WasResetIsReset(c, Run(c, t, ops), op, k);
    hide Run, Step, LastReset, WasReset, Forgot;
  }

  lemma WasResetIsReset(c: Config, t: State, op: Op, k: AccountKey)
    requires WasReset(c, t, op, k)
    ensures op.OnAccounts? && op.account.Resetting? && !Forgot(c, t, op, k)
  {
    hide Step;
  }

  // ---- verification ----

  ghost predicate Verified(c: Config, t: State, op: Op, k: AccountKey) {
    op.OnAccounts? && op.account.Verification? && op.account.k == k && Step(c, t, op).result.Ok?
  }

  ghost predicate IsVerified(t: State, k: AccountKey) {
    k in t.accounts && t.accounts[k].verified
  }

  /** The operation hands out a verification token for the account. */
  ghost predicate TokenIssued(c: Config, t: State, op: Op, k: AccountKey) {
    op.OnAccounts? && (op.account.Registration? || op.account.Resending?) && op.account.k == k &&
      Step(c, t, op).result.Ok?
  }

  /** What an operation may do to an account's verification. */
  ghost predicate VerificationMoves(t: State, u: State, k: AccountKey, issued: bool, token: Secret, verified: bool) {
    && (IsVerified(t, k) ==> IsVerified(u, k) && !verified)
    && (verified ==> IsVerified(u, k) && k in t.accounts && t.accounts[k].verification == Some(Sha256(token)))
    && (k in u.accounts && u.accounts[k].verification.Some? ==>
          if issued then u.accounts[k].verification.value == Sha256(token)
          else k in t.accounts && u.accounts[k].verification == t.accounts[k].verification)
  }

  lemma SameAccountMoves(t: State, u: State, k: AccountKey, token: Secret)
    requires k in u.accounts ==> k in t.accounts
    requires k in t.accounts ==>
               && k in u.accounts && u.accounts[k].verified == t.accounts[k].verified
               && u.accounts[k].verification == t.accounts[k].verification
    ensures VerificationMoves(t, u, k, false, token, false)
  {
  }

  lemma SetVerifiedMoves(t: State, k: AccountKey, l: AccountKey)
    ensures VerificationMoves(t, SetVerified(t, k).state, l, false, 0, false)
  {
  }

  lemma RegisterMoves(t: State, l: AccountKey, password: string, salt: nat, id: Id, token: Secret, k: AccountKey)
    ensures
      var r := Accounts.Register(t, l, password, salt, id, token);
      VerificationMoves(t, r.state, k, l == k && r.result.Ok?, token, false)
  {
    hide AccountWithId, ValidPassword;
  }

  lemma VerifyMoves(t: State, l: AccountKey, token: Secret, k: AccountKey)
    ensures
      var r := Accounts.Verify(t, l, token);
      VerificationMoves(t, r.state, k, false, token, l == k && r.result.Ok?)
  {
  }

  lemma ResendMoves(t: State, l: AccountKey, token: Secret, k: AccountKey)
    ensures
      var r := Accounts.Resend(t, l, token);
      VerificationMoves(t, r.state, k, l == k && r.result.Ok?, token, false)
  {
  }

  lemma PlainMoves(c: Config, t: State, op: Accounts.Op, k: AccountKey)
    requires op.Registration? || op.Verification? || op.Resending?
    ensures
      var r := Accounts.Step(c, t, op);
      var mine := op.k == k && r.result.Ok?;
      VerificationMoves(t, r.state, k, mine && !op.Verification?, op.token, mine && op.Verification?)
  {
    hide VerificationMoves, Accounts.Register, Accounts.Verify, Accounts.Resend;
    if op.Registration? { RegisterMoves(t, op.k, op.password, op.salt, op.id, op.token, k); }
    else if op.Verification? { VerifyMoves(t, op.k, op.token, k); }
    else { ResendMoves(t, op.k, op.token, k); }
  }

  lemma CredentialMoves(c: Config, t: State, op: Accounts.Op, k: AccountKey)
    requires Accounts.Credential(op)
    ensures VerificationMoves(t, Accounts.Step(c, t, op).state, k, false, 0, false)
  {
    Accounts.CredentialChangeIsAllOrNothing(c, t, op);
    var u := Accounts.Step(c, t, op).state;
    hide Accounts.Step;
    if u != t && k != op.k {
      assert k in u.accounts <==> k in u.accounts - {op.k};
      assert k in t.accounts <==> k in t.accounts - {op.k};
      assert k in t.accounts ==> (u.accounts - {op.k})[k] == (t.accounts - {op.k})[k];
    }
    SameAccountMoves(t, u, k, 0);
  }

  lemma SpendMoves(t: State, l: AccountKey, account: Account, k: AccountKey)
    ensures VerificationMoves(t, LogonCodes.Spend(t, l, account), k, false, 0, false)
  {
    var u := ClearAttempts(DeleteCode(t, l), l);
    assert u.accounts == t.accounts;
    SameAccountMoves(t, u, k, 0);
    SetVerifiedMoves(u, l, k);
    SpentMoves(t, u, SetVerified(u, l).state, k);
    hide VerificationMoves, SetVerified, ClearAttempts, DeleteCode;
  }

  lemma CodeLogonMoves(c: Config, t: State, l: AccountKey, client: ClientId, code: string, a: Id, r: Id, k: AccountKey)
    ensures VerificationMoves(t, LogonCodes.Authenticate(c, t, l, client, code, a, r).state, k, false, 0, false)
  {
    var gate := LogonCodes.Gate(t, l, code);
    GateFrame(t, l);
    assert gate.state == Authn.CheckLockout(t, l).state;
    assert gate.state.accounts == t.accounts;
    hide Authn.CheckLockout, Authn.GateLogon, LogonCodes.Gate, LogonCodes.Spend, Authn.Issue, VerificationMoves,
         BcryptVerify;
    CountFrame(c, gate.state, l);
    SameAccountMoves(t, gate.state, k, 0);
    SameAccountMoves(t, Authn.CountFailure(c, gate.state, l).0, k, 0);
    hide Authn.CountFailure;
    if gate.result.Ok? {
      SpendMoves(gate.state, l, gate.result.value.0, k);
      SpentMoves(t, gate.state, LogonCodes.Spend(gate.state, l, gate.result.value.0), k);
    }
  }

  lemma CodesMove(c: Config, t: State, op: LogonCodes.Op, k: AccountKey)
    ensures VerificationMoves(t, LogonCodes.Step(c, t, op).state, k, false, 0, false)
  {
    hide LogonCodes.Request, LogonCodes.Authenticate, VerificationMoves;
    if op.CodeLogon? {
      CodeLogonMoves(c, t, op.k, op.client, op.code, op.accessJti, op.refreshJti, k);
    } else {
      RequestCodeFrame(c, t, op.k, op.code, op.salt);
      SameAccountMoves(t, LogonCodes.Step(c, t, op).state, k, 0);
    }
  }

  lemma SpentMoves(t: State, u: State, v: State, k: AccountKey)
    requires t.accounts == u.accounts && VerificationMoves(u, v, k, false, 0, false)
    ensures VerificationMoves(t, v, k, false, 0, false)
  {
  }

  lemma OthersKeepAccounts(c: Config, t: State, op: Op)
    requires op.OnAuthn? || op.OnOidc? || op.Janitor? || op.Tick? || op.Reload? ||
               (op.OnAccounts? && op.account.Forgetting?)
    ensures Step(c, t, op).state.accounts == t.accounts
  {
    if op.OnAuthn? { AuthnGrows(c, t, op.authn); hide Authn.Step; }
    else if op.OnOidc? {
      if op.oidc.Login? { LoginWritesAttempts(c, t, op.oidc); } else { OidcFrame(c, t, op.oidc); }
      hide Oidc.Step;
    }
    else if op.Janitor? { SweepFrame(t, op.sweep); hide Swept; }
    else if op.OnAccounts? { TokenOpsFrame(c, t, op.account.k, op.account.token); hide Accounts.Forgot; }
  }

  lemma VerificationSlot(c: Config, t: State, op: Op, k: AccountKey)
    ensures
      var carries := op.OnAccounts? && (op.account.Registration? || op.account.Verification? || op.account.Resending?);
      var token := if carries then op.account.token else 0;
      VerificationMoves(t, Step(c, t, op).state, k, TokenIssued(c, t, op, k), token, Verified(c, t, op, k))
  {
    hide VerificationMoves;
    if op.OnAccounts? && !op.account.Forgetting? {
      hide Accounts.Step;
      if Accounts.Credential(op.account) {
        CredentialMoves(c, t, op.account, k);
      } else {
        PlainMoves(c, t, op.account, k);
      }
    } else if op.OnCodes? {
      hide LogonCodes.Step;
      CodesMove(c, t, op.code, k);
    } else {
      OthersKeepAccounts(c, t, op);
      hide Step;
      SameAccountMoves(t, Step(c, t, op).state, k, 0);
    }
  }

  ghost function Verifications(c: Config, t: State, ops: seq<Op>, k: AccountKey): nat
    decreases |ops|
  {
    if ops == [] then 0
      else (if Verified(c, t, ops[0], k) then 1 else 0) + Verifications(c, Step(c, t, ops[0]).state, ops[1..], k)
  }

  /** An account is verified by token at most once, and never once it is verified. */
  lemma {:induction false} VerifiesAtMostOnce(c: Config, t: State, ops: seq<Op>, k: AccountKey)
    ensures Verifications(c, t, ops, k) <= if IsVerified(t, k) then 0 else 1
    decreases |ops|
  {
    hide Step, Verified, TokenIssued, IsVerified;
    if ops != [] {
      VerificationSlot(c, t, ops[0], k);
      VerifiesAtMostOnce(c, Step(c, t, ops[0]).state, ops[1..], k);
    }
  }

  /** The last verification token handed out for the account. */
  ghost function LastVerification(
    c: Config, t: State, ops: seq<Op>, k: AccountKey, before: Option<Secret>): Option<Secret>
    decreases |ops|
  {
    if ops == [] then before
    else
      LastVerification(c, Step(c, t, ops[0]).state, ops[1..], k,
                       if TokenIssued(c, t, ops[0], k) then Some(ops[0].account.token) else before)
  }

  ghost predicate VerificationIs(t: State, k: AccountKey, last: Option<Secret>) {
    k in t.accounts && t.accounts[k].verification.Some? ==>
      last.Some? && t.accounts[k].verification.value == Sha256(last.value)
  }

  lemma TokenIssuedIs(c: Config, t: State, op: Op, k: AccountKey)
    requires TokenIssued(c, t, op, k)
    ensures op.OnAccounts? && (op.account.Registration? || op.account.Resending?)
  {
    hide Step;
  }

  lemma {:induction false} StoredVerificationIsTheLast(
    c: Config, t: State, ops: seq<Op>, k: AccountKey, before: Option<Secret>)
    requires VerificationIs(t, k, before)
    ensures VerificationIs(Run(c, t, ops), k, LastVerification(c, t, ops, k, before))
    decreases |ops|
  {
    hide Step, Verified;
    if ops != [] {
      VerificationSlot(c, t, ops[0], k);
      if TokenIssued(c, t, ops[0], k) { TokenIssuedIs(c, t, ops[0], k); }
      StoredVerificationIsTheLast(c, Step(c, t, ops[0]).state, ops[1..], k,
                                  if TokenIssued(c, t, ops[0], k) then Some(ops[0].account.token) else before);
    }
  }

  /** Verification succeeds only with the last token handed out. */
  lemma OnlyTheLastVerificationTokenWorks(c: Config, t: State, ops: seq<Op>, op: Op, k: AccountKey)
    requires k !in t.accounts && Verified(c, Run(c, t, ops), op, k)
    ensures LastVerification(c, t, ops, k, None) == Some(op.account.token)
  {
    StoredVerificationIsTheLast(c, t, ops, k, None);
    VerificationSlot(c, Run(c, t, ops), op, k);
    hide Run, Step, LastVerification;
  }
}
