/** The api-key sessions table: where a row comes from, whom it answers, and what the sweep may hide. */
module Sessions {
  import opened Base
  import opened Schema
  import opened Sql
  import opened Tokens
  import opened Values
  import opened Service
  import opened Integrity
  import opened Frames
  import Accounts
  import Authn
  import LogonCodes
  import Oidc

  // ---- provenance ----

  /** The operation acknowledges a pair for this tenant, email and client. */
  ghost predicate Acks(c: Config, t: State, op: Op, s: SessionKey) {
    op.OnAuthn? && op.authn.Ack? && Step(c, t, op).result.Ok? && s == Authn.SessionOf(op.authn.refresh.claims)
  }

  function AccountBehind(s: SessionKey): AccountKey {
    AccountKey(s.tenant, s.email)
  }

  /** The operation is a revocation that covers this session: by client, of all clients, or a credential change. */
  ghost predicate Revokes(c: Config, t: State, op: Op, s: SessionKey) {
    || (op.OnAuthn? && op.authn.Revocation? && op.authn.k == AccountBehind(s) &&
        (op.authn.client == "" || op.authn.client == s.client))
    || (op.OnAccounts? && Accounts.Credential(op.account) && op.account.k == AccountBehind(s) &&
        ApiKeySessions in c.revokers && Step(c, t, op).result.Ok?)
  }

  lemma CredentialEndsSessions(c: Config, t: State, op: Accounts.Op)
    requires Accounts.Credential(op)
    ensures
      var r := Accounts.Step(c, t, op);
      && (forall s :: s in r.state.sessions ==> s in t.sessions)
      && (forall s :: s in r.state.sessions && AccountBehind(s) != op.k ==> r.state.sessions[s] == t.sessions[s])
      && (r.result.Ok? && ApiKeySessions in c.revokers ==> forall s :: s in r.state.sessions ==>
          AccountBehind(s) != op.k)
  {
    Accounts.CredentialChangeIsAllOrNothing(c, t, op);
    var r := Accounts.Step(c, t, op);
    if r.result.Ok? && ApiKeySessions in c.revokers {
      assert Accounts.Revoked(r.state, op.k, ApiKeySessions);
      assert Accounts.DropSessions in Accounts.Revocation(ApiKeySessions);
      assert Accounts.Holds(r.state, op.k, Accounts.DropSessions);
    }
    hide Accounts.Step;
  }

  lemma AckProvenance(c: Config, t: State, op: Authn.Op, s: SessionKey)
    requires op.Ack? && s in Authn.Step(c, t, op).state.sessions
    ensures s in t.sessions || (Authn.Step(c, t, op).result.Ok? && s == Authn.SessionOf(op.refresh.claims))
  {
    hide Tokens.Verifies;
  }

  lemma RenewalProvenance(c: Config, t: State, op: Authn.Op, s: SessionKey)
    requires op.Renewal? && s in Authn.Step(c, t, op).state.sessions
    ensures s in t.sessions
  {
    hide Tokens.Verifies, Authn.Issue, Authn.LiveAccount;
  }

  lemma RevokeProvenance(t: State, k: AccountKey, client: ClientId, s: SessionKey)
    requires s in Authn.Revoke(t, k, client).state.sessions
    ensures s in t.sessions && !(k == AccountBehind(s) && (client == "" || client == s.client))
  {
    if client == "" { assert s in DeleteSessions(t, k).sessions; }
    else { assert s in DeleteSession(t, SessionKey(k.tenant, k.email, client)).state.sessions; }
  }

  lemma RevocationProvenance(c: Config, t: State, op: Authn.Op, s: SessionKey)
    requires op.Revocation? && s in Authn.Step(c, t, op).state.sessions
    ensures s in t.sessions && !(op.k == AccountBehind(s) && (op.client == "" || op.client == s.client))
  {
    RevokeProvenance(t, op.k, op.client, s);
    hide Authn.Revoke;
  }

  lemma AuthnProvenance(c: Config, t: State, op: Op, s: SessionKey)
    requires op.OnAuthn? && s in Step(c, t, op).state.sessions
    ensures Acks(c, t, op, s) || (s in t.sessions && !Revokes(c, t, op, s))
  {
    var o := op.authn;
    assert Step(c, t, op) == Authn.Step(c, t, o);
    if o.Ack? { AckProvenance(c, t, o, s); }
    else if o.Renewal? { RenewalProvenance(c, t, o, s); }
    else if o.Revocation? { RevocationProvenance(c, t, o, s); }
    else { LogonFrame(c, t, o); }
    hide Authn.Step, Step;
  }

  lemma StepProvenance(c: Config, t: State, op: Op, s: SessionKey)
    requires s in Step(c, t, op).state.sessions
    ensures Acks(c, t, op, s) || (s in t.sessions && !Revokes(c, t, op, s))
  {
    if op.OnAuthn? { AuthnProvenance(c, t, op, s); hide Authn.Step, Step, Acks, Revokes; }
    else if op.OnAccounts? && Accounts.Credential(op.account) {
      CredentialEndsSessions(c, t, op.account);
      hide Accounts.Step;
    }
    else if op != Janitor(ExpiredSessions) { StepFrame(c, t, op); hide Step; }
  }

  /** The state just before the i-th operation of a run. */
  ghost function At(c: Config, t: State, ops: seq<Op>, i: nat): State
    requires i <= |ops|
  {
    Run(c, t, ops[..i])
  }

  lemma AtStep(c: Config, t: State, ops: seq<Op>, i: nat)
    requires i < |ops|
    ensures At(c, t, ops, i + 1) == Step(c, At(c, t, ops, i), ops[i]).state
  {
    hide Step;
    assert ops[..i + 1] == ops[..i] + [ops[i]];
    RunConcat(c, t, ops[..i], [ops[i]]);
    assert [ops[i]][1..] == [];
    assert Run(c, At(c, t, ops, i), [ops[i]]) == Run(c, Step(c, At(c, t, ops, i), ops[i]).state, []);
  }

  /** Acknowledged at step i of the run, and covered by no revocation since, up to step n. */
  ghost predicate StandsFrom(c: Config, t: State, ops: seq<Op>, s: SessionKey, i: nat, n: nat)
    requires n <= |ops|
  {
    && i < n
    && Acks(c, At(c, t, ops, i), ops[i], s)
    && forall j :: i < j < n ==> !Revokes(c, At(c, t, ops, j), ops[j], s)
  }

  /**
   * A session row exists only if it was there at the start and no revocation has covered it, or
   * an acknowledgement for its tenant, email and client came after the last revocation covering it.
   */
  lemma {:induction false} SessionHasItsAcknowledgement(c: Config, t: State, ops: seq<Op>, s: SessionKey, n: nat)
    requires n <= |ops| && s in At(c, t, ops, n).sessions
    ensures
      || (s in t.sessions && forall j :: 0 <= j < n ==> !Revokes(c, At(c, t, ops, j), ops[j], s))
      || (exists i :: StandsFrom(c, t, ops, s, i, n))
  {
    hide Acks, Revokes, Step;
    if n > 0 {
      var before := At(c, t, ops, n - 1);
      AtStep(c, t, ops, n - 1);
      StepProvenance(c, before, ops[n - 1], s);
      hide At;
      if Acks(c, before, ops[n - 1], s) {
        assert StandsFrom(c, t, ops, s, n - 1, n);
      } else {
        var m := n - 1;
        SessionHasItsAcknowledgement(c, t, ops, s, m);
        if i :| StandsFrom(c, t, ops, s, i, m) {
          assert StandsFrom(c, t, ops, s, i, n);
        }
      }
    }
  }

  // ---- client independence ----

  /** An api-key operation on behalf of one client. */
  predicate NamesClient(op: Op, client: ClientId) {
    || (op.OnAuthn? && op.authn.Logon? && op.authn.client == client)
    || (op.OnAuthn? && op.authn.Ack? && op.authn.refresh.claims.client == client)
    || (op.OnAuthn? && op.authn.Check? && op.authn.access.claims.client == client)
    || (op.OnAuthn? && op.authn.Renewal? && op.authn.refresh.claims.client == client)
    || (op.OnAuthn? && op.authn.Revocation? && op.authn.client == client)
    || (op.OnCodes? && op.code.CodeLogon? && op.code.client == client)
  }

  /** What Validate and Renew look at, for one session. */
  ghost predicate SameFor(t: State, u: State, s: SessionKey) {
    && u.now == t.now && u.ring == t.ring
    && (s in u.sessions <==> s in t.sessions)
    && (s in t.sessions ==> u.sessions[s] == t.sessions[s])
    && Authn.LiveAccount(u, AccountBehind(s)).Ok? == Authn.LiveAccount(t, AccountBehind(s)).Ok?
    && (Authn.LiveAccount(t, AccountBehind(s)).Err? ==>
        Authn.LiveAccount(u, AccountBehind(s)) == Authn.LiveAccount(t, AccountBehind(s)))
  }

  lemma SameForDecides(c: Config, t: State, u: State, tenant: Tenant, access: Jwt, refresh: Jwt, a: Id, r: Id)
    requires SameFor(t, u, Authn.SessionOf(access.claims)) && SameFor(t, u, Authn.SessionOf(refresh.claims))
    ensures Authn.ValidateAccess(c, u, tenant, access) == Authn.ValidateAccess(c, t, tenant, access)
    ensures Authn.Renew(c, u, tenant, refresh, a, r).result == Authn.Renew(c, t, tenant, refresh, a, r).result
  {
    hide Authn.LiveAccount;
  }

  lemma UntouchedSame(t: State, u: State, s: SessionKey)
    requires RowUntouched(t, u, s)
    ensures SameFor(t, u, s)
  {
  }

  lemma ClearSameFor(t: State, k: AccountKey, s: SessionKey)
    ensures SameFor(t, ClearAttempts(t, k), s)
  {
  }

  lemma SameForTransitive(t: State, u: State, v: State, s: SessionKey)
    requires SameFor(t, u, s) && SameFor(u, v, s)
    ensures SameFor(t, v, s)
  {
    hide Authn.LiveAccount;
  }

  lemma SameForReflexive(t: State, s: SessionKey)
    ensures SameFor(t, t, s)
  {
    hide Authn.LiveAccount;
  }

  lemma GateSameFor(t: State, k: AccountKey, s: SessionKey)
    ensures SameFor(t, Authn.CheckLockout(t, k).state, s)
  {
    SameForReflexive(t, s);
    ClearSameFor(t, k, s);
    hide SameFor, ClearAttempts;
  }

  lemma DeleteCodeSameFor(t: State, k: AccountKey, s: SessionKey)
    ensures SameFor(t, DeleteCode(t, k), s)
  {
  }

  lemma SetVerifiedSameFor(t: State, k: AccountKey, s: SessionKey)
    ensures SameFor(t, SetVerified(t, k).state, s)
  {
  }

  lemma SpendSameFor(t: State, k: AccountKey, account: Account, s: SessionKey)
    ensures SameFor(t, LogonCodes.Spend(t, k, account), s)
  {
    var u := DeleteCode(t, k);
    var v := ClearAttempts(u, k);
    DeleteCodeSameFor(t, k, s);
    ClearSameFor(u, k, s);
    SetVerifiedSameFor(v, k, s);
    SameForTransitive(t, u, v, s);
    SameForTransitive(t, v, SetVerified(v, k).state, s);
    hide SameFor, DeleteCode, ClearAttempts, SetVerified;
  }

  lemma CountSameFor(c: Config, t: State, k: AccountKey, s: SessionKey)
    ensures SameFor(t, Authn.CountFailure(c, t, k).0, s)
  {
  }

  lemma VerifyPasswordSameFor(c: Config, t: State, k: AccountKey, password: string, s: SessionKey)
    ensures SameFor(t, Authn.VerifyPassword(c, t, k, password).state, s)
  {
    var gate := Authn.GateLogon(t, k);
    var u := Authn.VerifyPassword(c, t, k, password).state;
    GateLeavesSide(t, k);
    GateSameFor(t, k, s);
    hide SameFor, Authn.CheckLockout, Authn.GateLogon, Authn.CountFailure, ClearAttempts;
    if gate.result.Ok? {
      ClearSameFor(gate.state, k, s);
      CountSameFor(c, gate.state, k, s);
      SameForTransitive(t, gate.state, u, s);
    }
  }

  ghost predicate RowUntouched(t: State, u: State, s: SessionKey) {
    && u == t.(sessions := u.sessions)
    && (s in u.sessions <==> s in t.sessions)
    && (s in t.sessions ==> u.sessions[s] == t.sessions[s])
  }

  lemma NothingUntouched(t: State, s: SessionKey)
    ensures RowUntouched(t, t, s)
  {
  }

  lemma PutUntouched(t: State, other: SessionKey, row: Session, current: Id, s: SessionKey)
    requires other.client != s.client
    ensures RowUntouched(t, UpsertSession(t, other, row), s)
    ensures RowUntouched(t, RotateSession(t, other, current, row).0, s)
  {
  }

  lemma AckUntouched(c: Config, t: State, tenant: Tenant, access: Jwt, refresh: Jwt, s: SessionKey)
    requires refresh.claims.client != s.client
    ensures RowUntouched(t, Authn.Acknowledge(c, t, tenant, access, refresh).state, s)
  {
    NothingUntouched(t, s);
    PutUntouched(t, Authn.SessionOf(refresh.claims), Session(refresh.claims.jti, refresh.claims.expires), 0, s);
    hide Tokens.Verifies, RowUntouched, UpsertSession, RotateSession;
  }

  lemma RenewUntouched(c: Config, t: State, tenant: Tenant, refresh: Jwt, a: Id, r: Id, s: SessionKey)
    requires refresh.claims.client != s.client
    ensures RowUntouched(t, Authn.Renew(c, t, tenant, refresh, a, r).state, s)
  {
    var next := Session(r,
      Authn.Issue(c, t, Authn.OwnerOf(refresh.claims), refresh.claims.client, a, r).refresh.claims.expires);
    NothingUntouched(t, s);
    PutUntouched(t, Authn.SessionOf(refresh.claims), next, refresh.claims.jti, s);
    hide Tokens.Verifies, Authn.Issue, Authn.LiveAccount, RowUntouched, UpsertSession, RotateSession;
  }

  lemma RevokeUntouched(t: State, k: AccountKey, client: ClientId, s: SessionKey)
    requires client != "" && client != s.client
    ensures RowUntouched(t, Authn.Revoke(t, k, client).state, s)
  {
  }

  lemma AuthnSameFor(c: Config, t: State, op: Authn.Op, other: ClientId, s: SessionKey)
    requires NamesClient(OnAuthn(op), other) && other != "" && other != s.client
    ensures SameFor(t, Authn.Step(c, t, op).state, s)
  {
    var u := Authn.Step(c, t, op).state;
    hide Authn.Authenticate, Authn.Acknowledge, Authn.Renew, Authn.Revoke, Authn.ValidateAccess, SameFor, RowUntouched;
    if op.Logon? {
      assert u == Authn.VerifyPassword(c, t, op.k, op.password).state by { LogonIsVerifyPassword(c, t, op); }
      VerifyPasswordSameFor(c, t, op.k, op.password, s);
    } else {
      if op.Ack? { AckUntouched(c, t, op.tenant, op.access, op.refresh, s); }
      else if op.Renewal? { RenewUntouched(c, t, op.tenant, op.refresh, op.accessJti, op.refreshJti, s); }
      else if op.Revocation? { RevokeUntouched(t, op.k, op.client, s); }
      else { assert RowUntouched(t, t, s) by { NothingUntouched(t, s); } }
      UntouchedSame(t, u, s);
    }
  }


  lemma LogonIsVerifyPassword(c: Config, t: State, op: Authn.Op)
    requires op.Logon?
    ensures Authn.Step(c, t, op).state == Authn.VerifyPassword(c, t, op.k, op.password).state
  {
    hide Authn.VerifyPassword;
  }

  lemma CodeLogonSameFor(c: Config, t: State, op: LogonCodes.Op, s: SessionKey)
    requires op.CodeLogon?
    ensures SameFor(t, LogonCodes.Step(c, t, op).state, s)
  {
    var gate := LogonCodes.Gate(t, op.k, op.code);
    var u := LogonCodes.Step(c, t, op).state;
    assert gate.state == Authn.CheckLockout(t, op.k).state;
    GateSameFor(t, op.k, s);
    hide SameFor, Authn.CheckLockout, LogonCodes.Gate, LogonCodes.Spend, Authn.CountFailure, Authn.Issue;
    if gate.result.Ok? {
      SpendSameFor(gate.state, op.k, gate.result.value.0, s);
      CountSameFor(c, gate.state, op.k, s);
      SameForTransitive(t, gate.state, u, s);
    }
  }

  lemma OtherClientSameFor(c: Config, t: State, op: Op, other: ClientId, s: SessionKey)
    requires NamesClient(op, other) && other != "" && other != s.client
    ensures SameFor(t, Step(c, t, op).state, s)
  {
    if op.OnAuthn? { AuthnSameFor(c, t, op.authn, other, s); } else { CodeLogonSameFor(c, t, op.code, s); }
    hide Authn.Step, LogonCodes.Step, SameFor;
  }

  ghost predicate NamesOther(op: Op, client: ClientId) {
    exists other :: NamesClient(op, other) && other != "" && other != client
  }

  ghost predicate NamesOthers(ops: seq<Op>, client: ClientId) {
    forall op :: op in ops ==> NamesOther(op, client)
  }

  lemma {:induction false} OtherClientsSameFor(c: Config, t: State, ops: seq<Op>, s: SessionKey)
    requires NamesOthers(ops, s.client)
    ensures SameFor(t, Run(c, t, ops), s)
    decreases |ops|
  {
    hide Step, NamesClient;
    if ops != [] {
      var u := Step(c, t, ops[0]).state;
      assert NamesOther(ops[0], s.client);
      var other :| NamesClient(ops[0], other) && other != "" && other != s.client;
      OtherClientSameFor(c, t, ops[0], other, s);
      assert NamesOthers(ops[1..], s.client);
      OtherClientsSameFor(c, u, ops[1..], s);
      SameForTransitive(t, u, Run(c, t, ops), s);
    }
  }

  /** Whatever other named clients do, one client's access and refresh tokens are answered alike. */
  lemma ClientsAreIndependent(
    c: Config, t: State, ops: seq<Op>, tenant: Tenant, access: Jwt, refresh: Jwt, a: Id, r: Id)
    requires access.claims.client == refresh.claims.client && NamesOthers(ops, access.claims.client)
    ensures
      var u := Run(c, t, ops);
      && Authn.ValidateAccess(c, u, tenant, access) == Authn.ValidateAccess(c, t, tenant, access)
      && Authn.Renew(c, u, tenant, refresh, a, r).result == Authn.Renew(c, t, tenant, refresh, a, r).result
  {
    hide Run, NamesOthers, SameFor, Authn.ValidateAccess, Authn.Renew;
    OtherClientsSameFor(c, t, ops, Authn.SessionOf(access.claims));
    OtherClientsSameFor(c, t, ops, Authn.SessionOf(refresh.claims));
    SameForDecides(c, t, Run(c, t, ops), tenant, access, refresh, a, r);
  }
}
