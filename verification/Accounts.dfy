/** The account lifecycle, and the transactions a credential change runs in. */
module Accounts {
  import opened Base
  import opened Schema
  import opened Sql
  import opened Values

  /** readLive: deleted reads as not found. */
  ghost function ReadLive(t: State, k: AccountKey): Result<Account> {
    var account := ReadAccount(t, k);
    if account.Ok? && account.value.deleted then Err(AccountNotFound) else account
  }

  ghost function Register(t: State, k: AccountKey, password: string, salt: nat, id: Id, token: Secret): Reply<Value> {
    if !ValidPassword(password) then Reply(t, Err(InvalidAccount))
    else
      var r := InsertAccount(t, k, Account(id, Bcrypt(salt, password), false, Some(Sha256(token)), true, false));
      Reply(r.state, if r.result.Ok? then Ok(SecretOf(token)) else Err(r.result.error))
  }

  ghost function Verify(t: State, k: AccountKey, token: Secret): Reply<Value> {
    var account := ReadLive(t, k);
    if account.Err? then Reply(t, Err(account.error))
    else if account.value.verified then Reply(t, Err(VerificationFailed))
    else if account.value.verification != Some(Sha256(token)) then Reply(t, Err(VerificationFailed))
    else Reply(SetVerified(t, k).state, Ok(Nothing))
  }

  ghost function Resend(t: State, k: AccountKey, token: Secret): Reply<Value> {
    var account := ReadLive(t, k);
    if account.Err? then Reply(t, Err(account.error))
    else if account.value.verified then Reply(t, Err(VerificationFailed))
    else Reply(SetVerificationHash(t, k, Sha256(token)).state, Ok(SecretOf(token)))
  }

  ghost function Forgot(c: Config, t: State, k: AccountKey, token: Secret): Reply<Value> {
    var account := ReadLive(t, k);
    if account.Err? then Reply(t, Err(account.error))
    else Reply(UpsertReset(t, k, PasswordReset(Sha256(token), t.now + c.resetExpiry)), Ok(SecretOf(token)))
  }

  // ---- transactions ----

  /** One write of a credential change. */
  datatype Change =
    | SetPassword(hash: Bcrypt)
    | MarkDeleted
    | DropReset
    | DropSessions
    | DropBrowsers
    | DropRefreshTokens
    | DropAccessTokens
    | DropAuthRequests
    | ClearLockout

  ghost function Exec(t: State, k: AccountKey, change: Change): Reply<()> {
    match change
    case SetPassword(hash) => SetPasswordHash(t, k, hash)
    case MarkDeleted => SoftDelete(t, k)
    case DropReset => Reply(DeleteReset(t, k), Ok(()))
    case DropSessions => Reply(DeleteSessions(t, k), Ok(()))
    case DropBrowsers => Reply(DeleteBrowsersForEmail(t, k), Ok(()))
    case DropRefreshTokens => Reply(DropRefreshOf(t, k.tenant, SubjectsOf(t, k), None), Ok(()))
    case DropAccessTokens => Reply(DropAccessOf(t, k.tenant, SubjectsOf(t, k), None), Ok(()))
    case DropAuthRequests => Reply(DropRequestsOf(t, k.tenant, SubjectsOf(t, k)), Ok(()))
    case ClearLockout => Reply(ClearAttempts(t, k), Ok(()))
  }

  /** The statements one revoker's DeleteAll issues. */
  function Revocation(revoker: Revoker): seq<Change> {
    match revoker
    case ApiKeySessions => [DropSessions]
    case OidcSessions => [DropBrowsers, DropRefreshTokens, DropAccessTokens, DropAuthRequests]
  }

  function Revocations(revokers: seq<Revoker>): seq<Change> {
    if revokers == [] then [] else Revocations(revokers[..|revokers| - 1]) + Revocation(revokers[|revokers| - 1])
  }

  function ResetBody(revokers: seq<Revoker>, hash: Bcrypt): seq<Change> {
    [SetPassword(hash), DropReset] + Revocations(revokers) + [ClearLockout]
  }

  function UpdateBody(revokers: seq<Revoker>, hash: Bcrypt): seq<Change> {
    [SetPassword(hash)] + Revocations(revokers)
  }

  function DeleteBody(revokers: seq<Revoker>): seq<Change> {
    [MarkDeleted] + Revocations(revokers)
  }

  /** Where the connection fails: before the statement numbered, or at the commit when that is the last number. */
  type Fault = Option<nat>

  /** The first i statements of the body; an error stops it. */
  ghost function RunBody(t: State, k: AccountKey, body: seq<Change>, fault: Fault, i: nat): Reply<()>
    requires i <= |body|
  {
    if i == 0 then Reply(t, Ok(()))
    else
      var before := RunBody(t, k, body, fault, i - 1);
      if before.result.Err? then before
      else if fault == Some(i - 1) then Reply(before.state, Err(Driver))
      else Exec(before.state, k, body[i - 1])
  }

  /** WithTransaction: commit everything, or put back the state the transaction found. */
  ghost function WithTransaction(t: State, k: AccountKey, body: seq<Change>, fault: Fault): Reply<()> {
    var r := RunBody(t, k, body, fault, |body|);
    if r.result.Err? then Reply(t, r.result)
    else if fault == Some(|body|) then Reply(t, Err(Driver))
    else r
  }

  ghost function Changed(r: Reply<()>): Reply<Value> {
    Reply(r.state, if r.result.Ok? then Ok(Nothing) else Err(r.result.error))
  }

  ghost function Reset(
    c: Config, t: State, k: AccountKey, token: Secret, password: string, salt: nat, fault: Fault): Reply<Value>
  {
    if !ValidPassword(password) then Reply(t, Err(InvalidAccount))
    else
      var account := ReadLive(t, k);
      if account.Err? then Reply(t, Err(account.error))
      else
        var hash := ReadReset(t, k);
        if hash.Err? then Reply(t, Err(hash.error))
        else if hash.value != Sha256(token) then Reply(t, Err(ResetTokenInvalid))
        else Changed(WithTransaction(t, k, ResetBody(c.revokers, Bcrypt(salt, password)), fault))
  }

  ghost function UpdatePassword(
    c: Config, t: State, k: AccountKey, current: string, password: string, salt: nat, fault: Fault): Reply<Value>
  {
    if !ValidPassword(password) then Reply(t, Err(InvalidAccount))
    else
      var account := ReadLive(t, k);
      if account.Err? then Reply(t, Err(account.error))
      else if !BcryptVerify(account.value.password, current) then Reply(t, Err(InvalidAccount))
      else Changed(WithTransaction(t, k, UpdateBody(c.revokers, Bcrypt(salt, password)), fault))
  }

  ghost function Delete(c: Config, t: State, k: AccountKey, fault: Fault): Reply<Value> {
    var account := ReadLive(t, k);
    if account.Err? then Reply(t, Err(account.error))
    else Changed(WithTransaction(t, k, DeleteBody(c.revokers), fault))
  }

  datatype Op =
    | Registration(k: AccountKey, password: string, salt: nat, id: Id, token: Secret)
    | Verification(k: AccountKey, token: Secret)
    | Resending(k: AccountKey, token: Secret)
    | Forgetting(k: AccountKey, token: Secret)
    | Resetting(k: AccountKey, token: Secret, password: string, salt: nat, fault: Fault)
    | Updating(k: AccountKey, current: string, password: string, salt: nat, fault: Fault)
    | Deletion(k: AccountKey, fault: Fault)

  ghost function Step(c: Config, t: State, op: Op): Reply<Value> {
    match op
    case Registration(k, password, salt, id, token) => Register(t, k, password, salt, id, token)
    case Verification(k, token) => Verify(t, k, token)
    case Resending(k, token) => Resend(t, k, token)
    case Forgetting(k, token) => Forgot(c, t, k, token)
    case Resetting(k, token, password, salt, fault) => Reset(c, t, k, token, password, salt, fault)
    case Updating(k, current, password, salt, fault) => UpdatePassword(c, t, k, current, password, salt, fault)
    case Deletion(k, fault) => Delete(c, t, k, fault)
  }

  // ---- a credential change is all or nothing ----

  predicate Credential(op: Op) {
    op.Resetting? || op.Updating? || op.Deletion?
  }

  /** What committing one change means, whatever else the transaction did. */
  ghost predicate Holds(t: State, k: AccountKey, change: Change) {
    match change
    case SetPassword(hash) => k in t.accounts && t.accounts[k].password == hash
    case MarkDeleted => k in t.accounts && t.accounts[k].deleted
    case DropReset => k !in t.resets
    case DropSessions => forall s :: s in t.sessions ==> AccountKey(s.tenant, s.email) != k
    case DropBrowsers =>
      forall i :: i in t.browsers ==>
                    !(k in t.accounts && t.browsers[i].tenant == k.tenant && t.browsers[i].account == t.accounts[k].id)
    case DropRefreshTokens =>
      forall i :: i in t.refresh ==>
        !(t.refresh[i].tenant == k.tenant && t.refresh[i].grant.subject in SubjectsOf(t, k))
    case DropAccessTokens =>
      forall i :: i in t.access ==> !(t.access[i].tenant == k.tenant && t.access[i].grant.subject in SubjectsOf(t, k))
    case DropAuthRequests =>
      forall i :: i in t.requests ==> !(t.requests[i].tenant == k.tenant && t.requests[i].subject in SubjectsOf(t, k))
    case ClearLockout => k !in t.attempts
  }

  /** Setting the password twice in one body would undo the first; no body does. */
  ghost predicate OnePassword(body: seq<Change>) {
    forall i, j :: 0 <= i < |body| && 0 <= j < |body| && body[i].SetPassword? && body[j].SetPassword? ==>
      body[i] == body[j]
  }

  lemma ExecEstablishes(t: State, k: AccountKey, change: Change)
    requires Exec(t, k, change).result.Ok?
    ensures Holds(Exec(t, k, change).state, k, change)
  {
  }

  lemma ExecKeeps(t: State, k: AccountKey, change: Change, held: Change)
    requires Exec(t, k, change).result.Ok? && Holds(t, k, held)
    requires change.SetPassword? && held.SetPassword? ==> change == held
    ensures Holds(Exec(t, k, change).state, k, held)
  {
    var u := Exec(t, k, change).state;
    assert SubjectsOf(u, k) == SubjectsOf(t, k);
  }

  // ---- what belongs to an account ----

  ghost predicate OwnedRefresh(t: State, k: AccountKey, i: Id) {
    k in t.accounts && i in t.refresh && t.refresh[i].tenant == k.tenant &&
      t.refresh[i].grant.subject == User(t.accounts[k].id)
  }

  ghost predicate OwnedAccess(t: State, k: AccountKey, i: Id) {
    k in t.accounts && i in t.access && t.access[i].tenant == k.tenant &&
      t.access[i].grant.subject == User(t.accounts[k].id)
  }

  ghost predicate OwnedBrowser(t: State, k: AccountKey, i: Id) {
    k in t.accounts && i in t.browsers && t.browsers[i].tenant == k.tenant && t.browsers[i].account == t.accounts[k].id
  }

  /** An authorization request the account has already authenticated. */
  ghost predicate OwnedRequest(t: State, k: AccountKey, i: Id) {
    k in t.accounts && i in t.requests && t.requests[i].tenant == k.tenant &&
      t.requests[i].subject == User(t.accounts[k].id)
  }

  /** The cascade takes this token when the account's grants go. */
  ghost predicate UnderOwned(t: State, k: AccountKey, a: Id) {
    a in t.access && t.access[a].parent.Some? && OwnedRefresh(t, k, t.access[a].parent.value)
  }

  ghost predicate RequestsConfined(t: State, u: State, k: AccountKey) {
    && (forall i :: i in u.requests ==> i in t.requests && u.requests[i] == t.requests[i])
    && (forall i :: i in t.requests && !OwnedRequest(t, k, i) ==> i in u.requests)
  }

  ghost predicate RefreshConfined(t: State, u: State, k: AccountKey) {
    && (forall i :: i in u.refresh ==> i in t.refresh && u.refresh[i] == t.refresh[i])
    && (forall i :: i in t.refresh && !OwnedRefresh(t, k, i) ==> i in u.refresh)
  }

  ghost predicate AccessConfined(t: State, u: State, k: AccountKey) {
    && (forall a :: a in u.access ==> a in t.access && u.access[a] == t.access[a])
    && (forall a :: a in t.access && !OwnedAccess(t, k, a) && !UnderOwned(t, k, a) ==> a in u.access)
  }

  ghost predicate BrowsersConfined(t: State, u: State, k: AccountKey) {
    && (forall i :: i in u.browsers ==> i in t.browsers && u.browsers[i] == t.browsers[i])
    && (forall i :: i in t.browsers && !OwnedBrowser(t, k, i) ==> i in u.browsers)
  }

  /** Of the OIDC tables, only rows of the account have gone, and none has changed. */
  ghost predicate OidcConfined(t: State, u: State, k: AccountKey) {
    RequestsConfined(t, u, k) && RefreshConfined(t, u, k) && AccessConfined(t, u, k) && BrowsersConfined(t, u, k)
  }

  /** The same for the account and api-key tables. */
  ghost predicate CoreConfined(t: State, u: State, k: AccountKey) {
    && u.now == t.now && u.ring == t.ring && u.codes == t.codes
    && (k in t.accounts <==> k in u.accounts)
    && u.accounts - {k} == t.accounts - {k}
    && (k in t.accounts ==>
          var a, b := t.accounts[k], u.accounts[k];
          a.id == b.id && a.verified == b.verified && a.verification == b.verification && a.enabled == b.enabled)
    && u.resets - {k} == t.resets - {k}
    && u.attempts - {k} == t.attempts - {k}
    && (forall s :: s in t.sessions && AccountKey(s.tenant, s.email) != k ==> s in u.sessions)
    && (forall s :: s in u.sessions ==> s in t.sessions && u.sessions[s] == t.sessions[s])
  }

  /** A body's writes stay within the account: everything else of the state is as it was. */
  ghost predicate Confined(t: State, u: State, k: AccountKey) {
    CoreConfined(t, u, k) && OidcConfined(t, u, k)
  }

  predicate OnOidc(change: Change) {
    change.DropBrowsers? || change.DropRefreshTokens? || change.DropAccessTokens? || change.DropAuthRequests?
  }

  lemma OidcExecConfined(t: State, k: AccountKey, change: Change)
    requires OnOidc(change)
    ensures Confined(t, Exec(t, k, change).state, k)
  {
    var u := Exec(t, k, change).state;
    assert CoreConfined(t, u, k);
    OidcExecRows(t, k, change);
    hide CoreConfined, RequestsConfined, RefreshConfined, AccessConfined, BrowsersConfined;
  }

  lemma OidcExecRows(t: State, k: AccountKey, change: Change)
    requires OnOidc(change)
    ensures OidcConfined(t, Exec(t, k, change).state, k)
  {
    if change.DropRefreshTokens? {
      DropRefreshRows(t, k);
    } else {
      hide DropRefresh;
    }
  }

  lemma DropRefreshRows(t: State, k: AccountKey)
    ensures OidcConfined(t, DropRefreshOf(t, k.tenant, SubjectsOf(t, k), None), k)
  {
  }

  lemma SameRowsConfined(t: State, u: State, k: AccountKey)
    requires u.requests == t.requests && u.refresh == t.refresh && u.access == t.access && u.browsers == t.browsers
    ensures OidcConfined(t, u, k)
  {
  }

  lemma UpdateConfined(t: State, k: AccountKey, a: Account)
    requires k in t.accounts
    requires
      var b := t.accounts[k];
      a.id == b.id && a.verified == b.verified && a.verification == b.verification && a.enabled == b.enabled
    ensures CoreConfined(t, UpdateAccount(t, k, a).state, k)
  {
    assert t.accounts[k := a] - {k} == t.accounts - {k};
  }

  lemma DropConfined(t: State, k: AccountKey)
    ensures CoreConfined(t, t, k) && CoreConfined(t, DeleteReset(t, k), k)
  {
  }

  lemma ClearConfined(t: State, k: AccountKey)
    ensures CoreConfined(t, DeleteSessions(t, k), k) && CoreConfined(t, ClearAttempts(t, k), k)
  {
  }

  lemma AccountExecSameRows(t: State, k: AccountKey, change: Change)
    requires !OnOidc(change)
    ensures
      var u := Exec(t, k, change).state;
      u.requests == t.requests && u.refresh == t.refresh && u.access == t.access && u.browsers == t.browsers
  {
  }

  lemma AccountExecConfined(t: State, k: AccountKey, change: Change)
    requires !OnOidc(change)
    ensures Confined(t, Exec(t, k, change).state, k)
  {
    AccountExecSameRows(t, k, change);
    SameRowsConfined(t, Exec(t, k, change).state, k);
    DropConfined(t, k);
    ClearConfined(t, k);
    if k in t.accounts && change.SetPassword? { UpdateConfined(t, k, t.accounts[k].(password := change.hash)); }
    if k in t.accounts && change.MarkDeleted? { UpdateConfined(t, k, t.accounts[k].(deleted := true)); }
    hide OidcConfined, CoreConfined, UpdateAccount, DeleteReset, DeleteSessions, ClearAttempts;
  }

  lemma ExecConfined(t: State, k: AccountKey, change: Change)
    ensures Confined(t, Exec(t, k, change).state, k)
  {
    if OnOidc(change) { OidcExecConfined(t, k, change); } else { AccountExecConfined(t, k, change); }
  }

  /** No change fails once the account is there, and only two of them touch its row. */
  lemma ExecAccount(t: State, k: AccountKey, change: Change)
    ensures k !in t.accounts ==> k !in Exec(t, k, change).state.accounts
    ensures k in t.accounts ==>
              var r := Exec(t, k, change);
              && r.result.Ok?
              && k in r.state.accounts
              && r.state.accounts[k] ==
                 if change.SetPassword? then t.accounts[k].(password := change.hash)
                 else if change.MarkDeleted? then t.accounts[k].(deleted := true)
                 else t.accounts[k]
  {
  }

  ghost predicate SameOwner(t: State, u: State, k: AccountKey) {
    (k in t.accounts <==> k in u.accounts) && (k in t.accounts ==> t.accounts[k].id == u.accounts[k].id)
  }

  lemma RowsConfinedTransitive(t: State, u: State, v: State, k: AccountKey)
    requires SameOwner(t, u, k)
    ensures RequestsConfined(t, u, k) && RequestsConfined(u, v, k) ==> RequestsConfined(t, v, k)
    ensures BrowsersConfined(t, u, k) && BrowsersConfined(u, v, k) ==> BrowsersConfined(t, v, k)
  {
  }

  lemma TokensConfinedTransitive(t: State, u: State, v: State, k: AccountKey)
    requires SameOwner(t, u, k) && RefreshConfined(t, u, k) && RefreshConfined(u, v, k)
    ensures RefreshConfined(t, v, k)
    ensures AccessConfined(t, u, k) && AccessConfined(u, v, k) ==> AccessConfined(t, v, k)
  {
    assert forall i :: OwnedRefresh(u, k, i) ==> OwnedRefresh(t, k, i);
  }

  lemma OidcConfinedTransitive(t: State, u: State, v: State, k: AccountKey)
    requires SameOwner(t, u, k) && OidcConfined(t, u, k) && OidcConfined(u, v, k)
    ensures OidcConfined(t, v, k)
  {
    RowsConfinedTransitive(t, u, v, k);
    TokensConfinedTransitive(t, u, v, k);
    hide SameOwner, RequestsConfined, RefreshConfined, AccessConfined, BrowsersConfined;
  }

  lemma ConfinedTransitive(t: State, u: State, v: State, k: AccountKey)
    requires Confined(t, u, k) && Confined(u, v, k)
    ensures Confined(t, v, k)
  {
    OidcConfinedTransitive(t, u, v, k);
    hide OidcConfined;
  }

  lemma {:induction false} RunBodyHolds(t: State, k: AccountKey, body: seq<Change>, fault: Fault, i: nat)
    requires i <= |body| && OnePassword(body)
    requires RunBody(t, k, body, fault, i).result.Ok?
    ensures forall j :: 0 <= j < i ==> Holds(RunBody(t, k, body, fault, i).state, k, body[j])
    ensures Confined(t, RunBody(t, k, body, fault, i).state, k)
    ensures fault.Some? ==> fault.value >= i
  {
    if i > 0 {
      RunBodyHolds(t, k, body, fault, i - 1);
      var before := RunBody(t, k, body, fault, i - 1).state;
      var after := RunBody(t, k, body, fault, i).state;
      ExecEstablishes(before, k, body[i - 1]);
      ExecConfined(before, k, body[i - 1]);
      ConfinedTransitive(t, before, after, k);
      forall j | 0 <= j < i ensures Holds(after, k, body[j]) {
        if j < i - 1 { ExecKeeps(before, k, body[i - 1], body[j]); }
      }
    }
  }

  /** A body fails only where the connection does, once its account exists. */
  lemma {:induction false} RunBodySucceeds(t: State, k: AccountKey, body: seq<Change>, fault: Fault, i: nat)
    requires i <= |body| && k in t.accounts
    ensures RunBody(t, k, body, fault, i).result.Ok? <==> !(fault.Some? && fault.value < i)
    ensures k in RunBody(t, k, body, fault, i).state.accounts
  {
    hide Exec;
    if i > 0 {
      RunBodySucceeds(t, k, body, fault, i - 1);
      ExecAccount(RunBody(t, k, body, fault, i - 1).state, k, body[i - 1]);
    }
  }

  /** Either every statement's effect is there, or the whole store is exactly as before. */
  lemma TransactionIsAllOrNothing(t: State, k: AccountKey, body: seq<Change>, fault: Fault)
    requires k in t.accounts && OnePassword(body)
    ensures
      var r := WithTransaction(t, k, body, fault);
      && (r.result.Ok? <==> !(fault.Some? && fault.value <= |body|))
      && (r.result.Err? ==> r.state == t)
      && (r.result.Ok? ==> (forall j :: 0 <= j < |body| ==> Holds(r.state, k, body[j])) && Confined(t, r.state, k))
  {
    RunBodySucceeds(t, k, body, fault, |body|);
    if RunBody(t, k, body, fault, |body|).result.Ok? {
      RunBodyHolds(t, k, body, fault, |body|);
    }
  }

  lemma {:induction false} RevocationsHaveEveryRevoker(revokers: seq<Revoker>)
    ensures forall r :: r in revokers ==> forall change :: change in Revocation(r) ==> change in Revocations(revokers)
    ensures forall change :: change in Revocations(revokers) ==> !change.SetPassword? && change != MarkDeleted
  {
    if revokers != [] {
      var last := |revokers| - 1;
      RevocationsHaveEveryRevoker(revokers[..last]);
      assert revokers == revokers[..last] + [revokers[last]];
    }
  }

  /** Every surface a revoker stands for is empty of the account. */
  ghost predicate Revoked(t: State, k: AccountKey, revoker: Revoker) {
    forall change :: change in Revocation(revoker) ==> Holds(t, k, change)
  }

  function BodyOf(c: Config, op: Op): seq<Change>
    requires Credential(op)
  {
    match op
    case Resetting(_, _, password, salt, _) => ResetBody(c.revokers, Bcrypt(salt, password))
    case Updating(_, _, password, salt, _) => UpdateBody(c.revokers, Bcrypt(salt, password))
    case Deletion(_, _) => DeleteBody(c.revokers)
  }

  lemma BodyHolds(c: Config, op: Op)
    requires Credential(op)
    ensures OnePassword(BodyOf(c, op))
    ensures forall r :: r in c.revokers ==> forall change :: change in Revocation(r) ==> change in BodyOf(c, op)
  {
    RevocationsHaveEveryRevoker(c.revokers);
  }

  lemma CommittedRanItsBody(c: Config, t: State, op: Op)
    requires Credential(op) && Step(c, t, op).result.Ok?
    ensures op.k in t.accounts && !t.accounts[op.k].deleted
    ensures WithTransaction(t, op.k, BodyOf(c, op), op.fault) == Reply(Step(c, t, op).state, Ok(()))
  {
  }

  /**
   * For any list of revokers and any failure point: a credential change that succeeds has its
   * account update in place and every revoker run, a reset has also spent its token and cleared
   * the lockout, and one that fails has changed nothing at all.
   */
  lemma CredentialChangeIsAllOrNothing(c: Config, t: State, op: Op)
    requires Credential(op)
    ensures
      var r := Step(c, t, op);
      && (r.result.Err? ==> r.state == t)
      && (r.result.Ok? ==>
            && op.k in r.state.accounts
            && (forall revoker :: revoker in c.revokers ==> Revoked(r.state, op.k, revoker))
            && (op.Resetting? ==>
                  && r.state.accounts[op.k] == t.accounts[op.k].(password := Bcrypt(op.salt, op.password))
                  && op.k !in r.state.resets && op.k !in r.state.attempts)
            && (op.Updating? ==> r.state.accounts[op.k] == t.accounts[op.k].(password := Bcrypt(op.salt, op.password)))
            && (op.Deletion? ==> r.state.accounts[op.k] == t.accounts[op.k].(deleted := true))
            && Confined(t, r.state, op.k))
  {
    var r := Step(c, t, op);
    if r.result.Ok? {
      CommittedRanItsBody(c, t, op);
      var body := BodyOf(c, op);
      BodyHolds(c, op);
      TransactionIsAllOrNothing(t, op.k, body, op.fault);
      forall revoker | revoker in c.revokers ensures Revoked(r.state, op.k, revoker) {
        forall change | change in Revocation(revoker) ensures Holds(r.state, op.k, change) {
          assert change in body;
        }
      }
      assert Holds(r.state, op.k, body[0]);
      RunBodyAccount(t, op.k, body, op.fault, |body|);
      if op.Resetting? {
        assert Holds(r.state, op.k, body[1]) && Holds(r.state, op.k, body[|body| - 1]);
      }
      RevocationsHaveEveryRevoker(c.revokers);
    }
  }

  /** Only the statements that name the account row change it. */
  lemma {:induction false} RunBodyAccount(t: State, k: AccountKey, body: seq<Change>, fault: Fault, i: nat)
    requires i <= |body| && k in t.accounts
    ensures
      var u := RunBody(t, k, body, fault, i).state;
      && k in u.accounts
      && ((forall change :: change in body ==> !change.SetPassword?) ==>
          u.accounts[k].password == t.accounts[k].password)
      && ((forall change :: change in body ==> change != MarkDeleted) ==>
          u.accounts[k].deleted == t.accounts[k].deleted)
  {
    if i > 0 {
      RunBodyAccount(t, k, body, fault, i - 1);
      ExecAccount(RunBody(t, k, body, fault, i - 1).state, k, body[i - 1]);
      assert body[i - 1] in body;
    }
  }
}
