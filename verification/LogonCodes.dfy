/** One-time logon codes: requested into a one-row slot, spent under the password lockout. */
module LogonCodes {
  import opened Base
  import opened Schema
  import opened Sql
  import opened Values
  import Authn

  /** Requesting needs no verified account: receiving the code proves the mailbox. */
  ghost function Request(c: Config, t: State, k: AccountKey, code: string, salt: nat): Reply<Value> {
    var account := ReadAccount(t, k);
    if account.Err? then Reply(t, Err(account.error))
    else if account.value.deleted then Reply(t, Err(AccountNotFound))
    else if !account.value.enabled then Reply(t, Err(AccountDisabled))
    else Reply(UpsertCode(t, k, LogonCode(Bcrypt(salt, code), t.now + c.codeExpiry)),
               Ok(CodeOf(code, t.now + c.codeExpiry)))
  }

  /** Everything before the comparison: the lock, the format, the account and the stored code. */
  ghost function Gate(t: State, k: AccountKey, code: string): Reply<(Account, Bcrypt)> {
    var gate := Authn.CheckLockout(t, k);
    if gate.result.Err? then Reply(gate.state, Err(gate.result.error))
    else if !ValidCode(code) then Reply(gate.state, Err(LogonCodeInvalid))
    else
      var account := ReadAccount(gate.state, k);
      if account.Err? || account.value.deleted then Reply(gate.state, Err(AuthenticationFailed))
      else if !account.value.enabled then Reply(gate.state, Err(AccountDisabled))
      else
        var hash := ReadCode(gate.state, k);
        if hash.Err? then Reply(gate.state, Err(hash.error))
        else Reply(gate.state, Ok((account.value, hash.value)))
  }

  ghost function Spend(t: State, k: AccountKey, account: Account): State {
    var u := ClearAttempts(DeleteCode(t, k), k);
    if account.verified then u else SetVerified(u, k).state
  }

  ghost function Authenticate(
    c: Config, t: State, k: AccountKey, client: ClientId, code: string, accessJti: Id, refreshJti: Id): Reply<Value>
  {
    var gate := Gate(t, k, code);
    if gate.result.Err? then Reply(gate.state, Err(gate.result.error))
    else if !BcryptVerify(gate.result.value.1, code) then
      var (u, e) := Authn.CountFailure(c, gate.state, k);
      Reply(u, Err(e))
    else
      var u := Spend(gate.state, k, gate.result.value.0);
      Reply(u, Ok(Authn.Issue(c, u, k, client, accessJti, refreshJti)))
  }

  datatype Op =
    | RequestCode(k: AccountKey, code: string, salt: nat)
    | CodeLogon(k: AccountKey, client: ClientId, code: string, accessJti: Id, refreshJti: Id)

  ghost function Step(c: Config, t: State, op: Op): Reply<Value> {
    match op
    case RequestCode(k, code, salt) => Request(c, t, k, code, salt)
    case CodeLogon(k, client, code, a, r) => Authenticate(c, t, k, client, code, a, r)
  }
}
