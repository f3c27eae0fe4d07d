/** DefaultAccountService and its transactions, proved against the functions in Accounts. */
module AccountServices {
  import opened Base
  import opened Schema
  import opened Sql
  import opened Values
  import opened Backends
  import Accounts

  class AccountService {
    const db: Backend
    const config: Config

    constructor (db: Backend, config: Config)
      ensures this.db == db && this.config == config
    {
      this.db, this.config := db, config;
    }

    method ReadLive(k: AccountKey) returns (r: Result<Account>)
      ensures r == Accounts.ReadLive(db.View(), k)
    {
      r := db.ReadAccount(k);
      if r.Ok? && r.value.deleted {
        return Err(AccountNotFound);
      }
    }

    method Register(k: AccountKey, password: string, salt: nat, id: Id, token: Secret) returns (r: Result<Value>)
      modifies db
      ensures Accounts.Step(config, old(db.View()), Accounts.Registration(k, password, salt, id, token)) ==
                Reply(db.View(), r)
    {
      if !ValidPassword(password) {
        return Err(InvalidAccount);
      }
      var created := db.CreateAccount(k, Account(id, Bcrypt(salt, password), false, Some(Sha256(token)), true, false));
      r := if created.Ok? then Ok(SecretOf(token)) else Err(created.error);
    }

    method Verify(k: AccountKey, token: Secret) returns (r: Result<Value>)
      modifies db
      ensures Accounts.Step(config, old(db.View()), Accounts.Verification(k, token)) == Reply(db.View(), r)
    {
      var account := ReadLive(k);
      if account.Err? {
        return Err(account.error);
      }
      if account.value.verified || account.value.verification != Some(Sha256(token)) {
        return Err(VerificationFailed);
      }
      var updated := db.SetVerified(k);
      r := Ok(Nothing);
    }

    method ResendVerification(k: AccountKey, token: Secret) returns (r: Result<Value>)
      modifies db
      ensures Accounts.Step(config, old(db.View()), Accounts.Resending(k, token)) == Reply(db.View(), r)
    {
      var account := ReadLive(k);
      if account.Err? {
        return Err(account.error);
      }
      if account.value.verified {
        return Err(VerificationFailed);
      }
      var updated := db.UpdateVerificationHash(k, Sha256(token));
      r := Ok(SecretOf(token));
    }

    method Forgot(k: AccountKey, token: Secret) returns (r: Result<Value>)
      modifies db
      ensures Accounts.Step(config, old(db.View()), Accounts.Forgetting(k, token)) == Reply(db.View(), r)
    {
      var account := ReadLive(k);
      if account.Err? {
        return Err(account.error);
      }
      db.UpsertReset(k, PasswordReset(Sha256(token), db.now + config.resetExpiry));
      r := Ok(SecretOf(token));
    }

    /** The subjects a statement keyed by email resolves to. */
    method Subjects(k: AccountKey) returns (subjects: set<Subject>)
      ensures subjects == SubjectsOf(db.View(), k)
    {
      subjects := {};
      if k in db.accounts {
        subjects := {User(db.accounts[k].id)};
      }
    }

    method DropRefreshTokens(k: AccountKey)
      modifies db
      ensures db.View() == DropRefreshOf(old(db.View()), k.tenant, SubjectsOf(old(db.View()), k), None)
    {
      var subjects := Subjects(k);
      var dead := set i | i in db.refresh &&
        Covers(k.tenant, subjects, None, db.refresh[i].tenant, db.refresh[i].grant);
      db.DropRefresh(dead);
    }

    method DropAccessTokens(k: AccountKey)
      modifies db
      ensures db.View() == DropAccessOf(old(db.View()), k.tenant, SubjectsOf(old(db.View()), k), None)
    {
      var subjects := Subjects(k);
      db.access := map a | a in db.access && !Covers(k.tenant, subjects, None, db.access[a].tenant, db.access[a].grant)
                     :: db.access[a];
    }

    method DropAuthRequests(k: AccountKey)
      modifies db
      ensures db.View() == DropRequestsOf(old(db.View()), k.tenant, SubjectsOf(old(db.View()), k))
    {
      var subjects := Subjects(k);
      db.requests := map i | i in db.requests &&
        !(db.requests[i].tenant == k.tenant && db.requests[i].subject in subjects)
                       :: db.requests[i];
    }

    /** One statement of a transaction. */
    method Exec(k: AccountKey, change: Accounts.Change) returns (r: Result<()>)
      modifies db
      ensures Accounts.Exec(old(db.View()), k, change) == Reply(db.View(), r)
    {
      r := Ok(());
      match change
      case SetPassword(hash) => r := db.UpdatePasswordHash(k, hash);
      case MarkDeleted => r := db.SoftDelete(k);
      case DropReset => db.DeleteReset(k);
      case DropSessions => db.DeleteSessions(k);
      case DropBrowsers => db.DeleteBrowsersForEmail(k);
      case DropRefreshTokens => DropRefreshTokens(k);
      case DropAccessTokens => DropAccessTokens(k);
      case DropAuthRequests => DropAuthRequests(k);
      case ClearLockout => db.ClearAttempts(k);
    }

    /** Statements in order, until one fails. */
    method Run(k: AccountKey, body: seq<Accounts.Change>, fault: Accounts.Fault) returns (r: Result<()>)
      modifies db
      ensures Ran(old(db.View()), k, body, fault, db.View(), r)
    {
      ghost var t := db.View();
      r := Ok(());
      assert Accounts.RunBody(t, k, body, fault, 0) == Reply(db.View(), r);
      assert forall u, q :: Ran(t, k, body, fault, u, q) <==>
        Accounts.RunBody(t, k, body, fault, |body|) == Reply(u, q);
      hide *;
      for i := 0 to |body|
        invariant r == Ok(())
        invariant Accounts.RunBody(t, k, body, fault, i) == Reply(db.View(), r)
      {
        RunBodyNext(t, k, body, fault, i);
        RunBodyStops(t, k, body, fault, i + 1, |body|);
        if fault == Some(i) {
          return Err(Driver);
        }
        r := Exec(k, body[i]);
        if r.Err? {
          return;
        }
      }
    }

    /** One revoker's DeleteAll; `fault` counts from its first statement. */
    method DeleteAll(revoker: Revoker, k: AccountKey, fault: Accounts.Fault) returns (r: Result<()>)
      modifies db
      ensures Ran(old(db.View()), k, Accounts.Revocation(revoker), fault, db.View(), r)
      ensures r.Ok? ==> Accounts.Revoked(db.View(), k, revoker) && Accounts.Confined(old(db.View()), db.View(), k)
    {
      assert [revoker][..0] == [] && Accounts.Revocations([revoker]) == Accounts.Revocation(revoker);
      hide *;
      r := Run(k, Accounts.Revocation(revoker), fault);
      RanRevokes(old(db.View()), k, [revoker], fault, db.View(), r);
      assert revoker in [revoker];
    }

    /**
     * Every revoker in the order wired; the first that fails ends it. When none does, no surface a
     * revoker stands for has anything left of the account, and nothing else has changed.
     */
    method RevokeSessions(k: AccountKey, fault: Accounts.Fault) returns (r: Result<()>)
      modifies db
      ensures Ran(old(db.View()), k, Accounts.Revocations(config.revokers), fault, db.View(), r)
      ensures r.Ok? ==> forall revoker :: revoker in config.revokers ==> Accounts.Revoked(db.View(), k, revoker)
      ensures r.Ok? ==> Accounts.Confined(old(db.View()), db.View(), k)
    {
      r := Ok(());
      var revokers := config.revokers;
      ghost var t := db.View();
      var issued := 0;
      assert revokers[..0] == [] && Accounts.Revocations([]) == [] && Ran(t, k, [], fault, t, Ok(()));
      hide *;
      for i := 0 to |revokers|
        invariant r == Ok(()) && issued == |Accounts.Revocations(revokers[..i])|
        invariant Ran(t, k, Accounts.Revocations(revokers[..i]), fault, db.View(), r)
      {
        ghost var u := db.View();
        r := DeleteAll(revokers[i], k, After(fault, issued));
        RevokerRan(t, u, db.View(), k, revokers, i, fault, r);
        if r.Err? {
          return;
        }
        issued := issued + |Accounts.Revocation(revokers[i])|;
      }
      assert revokers[..|revokers|] == revokers;
      RanRevokes(t, k, revokers, fault, db.View(), r);
    }

    /** The statements before the revokers, the revokers, and those after. */
    method RunAll(
      k: AccountKey, before: seq<Accounts.Change>, after: seq<Accounts.Change>, fault: Accounts.Fault)
      returns (r: Result<()>)
      modifies db
      ensures Ran(old(db.View()), k, before + Accounts.Revocations(config.revokers) + after, fault, db.View(), r)
    {
      ghost var t, revocations := db.View(), Accounts.Revocations(config.revokers);
      hide *;
      r := Run(k, before, fault);
      ghost var u := db.View();
      if r.Err? {
        RanConcatenates(t, u, u, k, before, revocations, fault, r, r);
        RanConcatenates(t, u, u, k, before + revocations, after, fault, r, r);
        return;
      }
      r := RevokeSessions(k, After(fault, |before|));
      ghost var v, q := db.View(), r;
      RanConcatenates(t, u, v, k, before, revocations, fault, Ok(()), r);
      if r.Ok? {
        r := Run(k, after, After(fault, |before| + |Accounts.Revocations(config.revokers)|));
      }
      RanConcatenates(t, v, db.View(), k, before + revocations, after, fault, q, r);
    }

    /** All of them in one transaction: a failure anywhere, at the commit too, puts back what it found. */
    method WithTransaction(
      k: AccountKey, before: seq<Accounts.Change>, after: seq<Accounts.Change>, fault: Accounts.Fault)
      returns (r: Result<()>)
      requires Accounts.OnePassword(before + Accounts.Revocations(config.revokers) + after)
      modifies db
      ensures
        var body := before + Accounts.Revocations(config.revokers) + after;
        && Accounts.WithTransaction(old(db.View()), k, body, fault) == Reply(db.View(), r)
        && (r.Err? ==> db.View() == old(db.View()))
        && (r.Ok? ==> (forall i :: 0 <= i < |body| ==> Accounts.Holds(db.View(), k, body[i])))
        && (r.Ok? ==> Accounts.Confined(old(db.View()), db.View(), k))
    {
      var snapshot := db.View();
      ghost var body := before + Accounts.Revocations(config.revokers) + after;
      r := RunAll(k, before, after, fault);
      CommitsOrRestores(snapshot, k, body, fault, db.View(), r);
      hide *;
      if r.Ok? && fault == Some(|before| + |Accounts.Revocations(config.revokers)| + |after|) {
        r := Err(Driver);
      }
      if r.Err? {
        db.Restore(snapshot);
      }
    }

    method Reset(
      k: AccountKey, token: Secret, password: string, salt: nat, fault: Accounts.Fault) returns (r: Result<Value>)
      modifies db
      ensures Accounts.Step(config, old(db.View()), Accounts.Resetting(k, token, password, salt, fault)) ==
                Reply(db.View(), r)
    {
      if !ValidPassword(password) {
        return Err(InvalidAccount);
      }
      var account := ReadLive(k);
      if account.Err? {
        return Err(account.error);
      }
      var hash := db.ReadReset(k);
      if hash.Err? {
        return Err(hash.error);
      }
      if hash.value != Sha256(token) {
        return Err(ResetTokenInvalid);
      }
      var before := [Accounts.SetPassword(Bcrypt(salt, password)), Accounts.DropReset];
      Accounts.RevocationsHaveEveryRevoker(config.revokers);
      var done := WithTransaction(k, before, [Accounts.ClearLockout], fault);
      r := if done.Ok? then Ok(Nothing) else Err(done.error);
    }

    method UpdatePassword(k: AccountKey, current: string, password: string, salt: nat, fault: Accounts.Fault)
      returns (r: Result<Value>)
      modifies db
      ensures Accounts.Step(config, old(db.View()), Accounts.Updating(k, current, password, salt, fault)) ==
                Reply(db.View(), r)
    {
      if !ValidPassword(password) {
        return Err(InvalidAccount);
      }
      var account := ReadLive(k);
      if account.Err? {
        return Err(account.error);
      }
      if !BcryptVerify(account.value.password, current) {
        return Err(InvalidAccount);
      }
      Accounts.RevocationsHaveEveryRevoker(config.revokers);
      NothingAfter([Accounts.SetPassword(Bcrypt(salt, password))] + Accounts.Revocations(config.revokers));
      var done := WithTransaction(k, [Accounts.SetPassword(Bcrypt(salt, password))], [], fault);
      r := if done.Ok? then Ok(Nothing) else Err(done.error);
    }

    method Delete(k: AccountKey, fault: Accounts.Fault) returns (r: Result<Value>)
      modifies db
      ensures Accounts.Step(config, old(db.View()), Accounts.Deletion(k, fault)) == Reply(db.View(), r)
    {
      var account := ReadLive(k);
      if account.Err? {
        return Err(account.error);
      }
      Accounts.RevocationsHaveEveryRevoker(config.revokers);
      NothingAfter([Accounts.MarkDeleted] + Accounts.Revocations(config.revokers));
      var done := WithTransaction(k, [Accounts.MarkDeleted], [], fault);
      r := if done.Ok? then Ok(Nothing) else Err(done.error);
    }
  }

  lemma NothingAfter(body: seq<Accounts.Change>)
    ensures body + [] == body
  {
  }

  /** The same failure, counted from n statements on. */
  function After(fault: Accounts.Fault, n: nat): Accounts.Fault {
    if fault.Some? && fault.value >= n then Some(fault.value - n) else None
  }

  /** One statement on from a result, or the connection failing before it. */
  ghost function Onward(r: Reply<()>, k: AccountKey, change: Accounts.Change, fails: bool): Reply<()> {
    if r.result.Err? then r else if fails then Reply(r.state, Err(Driver)) else Accounts.Exec(r.state, k, change)
  }

  lemma RunBodyNext(t: State, k: AccountKey, body: seq<Accounts.Change>, fault: Accounts.Fault, i: nat)
    requires i < |body|
    ensures
      Accounts.RunBody(t, k, body, fault, i + 1) ==
      Onward(Accounts.RunBody(t, k, body, fault, i), k, body[i], fault == Some(i))
  {
    hide Accounts.Exec;
  }

  /** The body takes the state to this one with this result. */
  ghost predicate Ran(
    t: State, k: AccountKey, body: seq<Accounts.Change>, fault: Accounts.Fault, u: State, r: Result<()>)
  {
    Accounts.RunBody(t, k, body, fault, |body|) == Reply(u, r)
  }

  lemma CommitsOrRestores(
    t: State, k: AccountKey, body: seq<Accounts.Change>, fault: Accounts.Fault, u: State, r: Result<()>)
    requires Accounts.OnePassword(body) && Ran(t, k, body, fault, u, r)
    ensures
      Accounts.WithTransaction(t, k, body, fault) ==
      if r.Err? then Reply(t, r) else if fault == Some(|body|) then Reply(t, Err(Driver)) else Reply(u, r)
    ensures r.Ok? ==>
              && (forall i :: 0 <= i < |body| ==> Accounts.Holds(u, k, body[i]))
              && Accounts.Confined(t, u, k)
  {
    hide Accounts.RunBody, Accounts.Holds, Accounts.Confined;
    if r.Ok? { Accounts.RunBodyHolds(t, k, body, fault, |body|); }
  }

  lemma RevocationsNext(revokers: seq<Revoker>, i: nat)
    requires i < |revokers|
    ensures
      Accounts.Revocations(revokers[..i + 1]) == Accounts.Revocations(revokers[..i]) + Accounts.Revocation(revokers[i])
  {
    assert revokers[..i + 1][..i] == revokers[..i];
  }

  /** An error stops a body where it happens. */
  lemma {:induction false} RunBodyStops(
    t: State, k: AccountKey, body: seq<Accounts.Change>, fault: Accounts.Fault, i: nat, j: nat)
    requires i <= j <= |body|
    ensures
      Accounts.RunBody(t, k, body, fault, i).result.Err? ==>
        Accounts.RunBody(t, k, body, fault, j) == Accounts.RunBody(t, k, body, fault, i)
    decreases j
  {
    hide Accounts.Exec;
    if i < j {
      RunBodyStops(t, k, body, fault, i, j - 1);
    }
  }

  /** What comes later in a body does not matter to its beginning. */
  lemma {:induction false} RunBodyOfPrefix(
    t: State, k: AccountKey, prefix: seq<Accounts.Change>, body: seq<Accounts.Change>, fault: Accounts.Fault, i: nat)
    requires i <= |prefix| <= |body| && body[..|prefix|] == prefix
    ensures Accounts.RunBody(t, k, body, fault, i) == Accounts.RunBody(t, k, prefix, fault, i)
  {
    hide Accounts.Exec;
    if i > 0 {
      RunBodyOfPrefix(t, k, prefix, body, fault, i - 1);
      assert body[..|prefix|][i - 1] == body[i - 1];
    }
  }

  /** Running one body after another is running both. */
  lemma {:induction false} RunBodyConcatenates(
    t: State, u: State, k: AccountKey, a: seq<Accounts.Change>, b: seq<Accounts.Change>, fault: Accounts.Fault, j: nat)
    requires j <= |b| && Accounts.RunBody(t, k, a, fault, |a|) == Reply(u, Ok(()))
    ensures Accounts.RunBody(t, k, a + b, fault, |a| + j) == Accounts.RunBody(u, k, b, After(fault, |a|), j)
    decreases j
  {
    hide *;
    if j == 0 {
      RunBodyOfPrefix(t, k, a, a + b, fault, |a|);
      RunBodyBegins(u, k, b, After(fault, |a|));
    } else {
      RunBodyConcatenates(t, u, k, a, b, fault, j - 1);
      var (failsOne, failsOther) := (fault == Some(|a| + j - 1), After(fault, |a|) == Some(j - 1));
      AfterCounts(fault, |a|, j - 1);
      RunBodyNext(t, k, a + b, fault, |a| + j - 1);
      RunBodyNext(u, k, b, After(fault, |a|), j - 1);
      assert (a + b)[|a| + j - 1] == b[j - 1];
      assert failsOne == failsOther;
    }
  }

  lemma AfterCounts(fault: Accounts.Fault, n: nat, i: nat)
    ensures fault == Some(n + i) <==> After(fault, n) == Some(i)
  {
  }

  lemma RunBodyBegins(t: State, k: AccountKey, body: seq<Accounts.Change>, fault: Accounts.Fault)
    ensures Accounts.RunBody(t, k, body, fault, 0) == Reply(t, Ok(()))
  {
  }

  /** ... unless the first fails. */
  lemma RanConcatenates(
    t: State, u: State, v: State, k: AccountKey, a: seq<Accounts.Change>, b: seq<Accounts.Change>,
    fault: Accounts.Fault, q: Result<()>, r: Result<()>)
    requires Ran(t, k, a, fault, u, q)
    requires if q.Err? then v == u && r == q else Ran(u, k, b, After(fault, |a|), v, r)
    ensures Ran(t, k, a + b, fault, v, r)
  {
    if q.Err? {
      RunBodyOfPrefix(t, k, a, a + b, fault, |a|);
      RunBodyStops(t, k, a + b, fault, |a|, |a| + |b|);
    } else {
      RunBodyConcatenates(t, u, k, a, b, fault, |b|);
    }
    hide Accounts.RunBody;
  }

  /** The next revoker in the list, after the ones before it; if it fails, the list has. */
  lemma RevokerRan(
    t: State, u: State, v: State, k: AccountKey, revokers: seq<Revoker>, i: nat, fault: Accounts.Fault, r: Result<()>)
    requires i < |revokers| && Ran(t, k, Accounts.Revocations(revokers[..i]), fault, u, Ok(()))
    requires Ran(u, k, Accounts.Revocation(revokers[i]), After(fault, |Accounts.Revocations(revokers[..i])|), v, r)
    ensures
      |Accounts.Revocations(revokers[..i + 1])| ==
        |Accounts.Revocations(revokers[..i])| + |Accounts.Revocation(revokers[i])|
    ensures Ran(t, k, Accounts.Revocations(revokers[..i + 1]), fault, v, r)
    ensures r.Err? ==> Ran(t, k, Accounts.Revocations(revokers), fault, v, r)
  {
    var part, own := Accounts.Revocations(revokers[..i]), Accounts.Revocation(revokers[i]);
    var whole := Accounts.Revocations(revokers);
    RevocationsNext(revokers, i);
    RevocationsExtend(revokers, i + 1);
    hide *;
    RanConcatenates(t, u, v, k, part, own, fault, Ok(()), r);
    if r.Err? {
      var rest := whole[|part + own|..];
      assert whole == part + own + rest;
      RanConcatenates(t, v, v, k, part + own, rest, fault, r, r);
    }
  }

  lemma {:induction false} RevocationsExtend(revokers: seq<Revoker>, i: nat)
    requires i <= |revokers|
    ensures
      var (part, whole) := (Accounts.Revocations(revokers[..i]), Accounts.Revocations(revokers));
      |part| <= |whole| && whole[..|part|] == part
    decreases |revokers|
  {
    if i == |revokers| {
      assert revokers[..i] == revokers;
    } else {
      RevocationsExtend(revokers[..|revokers| - 1], i);
      assert revokers[..|revokers| - 1][..i] == revokers[..i];
    }
  }

  /** Revokers that have all run have emptied their surfaces and touched nothing else. */
  lemma RanRevokes(t: State, k: AccountKey, revokers: seq<Revoker>, fault: Accounts.Fault, u: State, r: Result<()>)
    requires Ran(t, k, Accounts.Revocations(revokers), fault, u, r)
    ensures r.Ok? ==>
              Accounts.Confined(t, u, k) && forall revoker :: revoker in revokers ==> Accounts.Revoked(u, k, revoker)
  {
    var body := Accounts.Revocations(revokers);
    Accounts.RevocationsHaveEveryRevoker(revokers);
    hide Accounts.RunBody, Accounts.Holds, Accounts.Confined;
    if r.Ok? {
      Accounts.RunBodyHolds(t, k, body, fault, |body|);
      assert forall change :: change in body ==> Accounts.Holds(u, k, change);
    }
  }
}
