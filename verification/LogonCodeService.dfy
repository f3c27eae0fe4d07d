/** DefaultLogonCodeService, proved against the functions in LogonCodes. */
module LogonCodeServices {
  import opened Base
  import opened Schema
  import opened Sql
  import opened Values
  import opened Backends
  import opened AuthnServices
  import LogonCodes

  class LogonCodeService {
    const db: Backend
    const config: Config
    const authentication: AuthenticationService

    constructor (authentication: AuthenticationService)
      ensures this.authentication == authentication
      ensures db == authentication.db && config == authentication.config
    {
      this.authentication := authentication;
      this.db, this.config := authentication.db, authentication.config;
    }

    method Request(k: AccountKey, code: string, salt: nat) returns (r: Result<Value>)
      modifies db
      ensures LogonCodes.Step(config, old(db.View()), LogonCodes.RequestCode(k, code, salt)) == Reply(db.View(), r)
    {
      var account := db.ReadAccount(k);
      if account.Err? {
        return Err(account.error);
      }
      if account.value.deleted {
        return Err(AccountNotFound);
      }
      if !account.value.enabled {
        return Err(AccountDisabled);
      }
      var expires := db.now + config.codeExpiry;
      db.UpsertCode(k, LogonCode(Bcrypt(salt, code), expires));
      r := Ok(CodeOf(code, expires));
    }

    method Authenticate(k: AccountKey, client: ClientId, code: string, accessJti: Id, refreshJti: Id)
      returns (r: Result<Value>)
      requires authentication.db == db && authentication.config == config
      modifies db
      ensures LogonCodes.Step(config, old(db.View()), LogonCodes.CodeLogon(k, client, code, accessJti, refreshJti)) ==
                Reply(db.View(), r)
    {
      var open := authentication.CheckLockout(k);
      if open.Err? {
        return Err(open.error);
      }
      if !ValidCode(code) {
        return Err(LogonCodeInvalid);
      }
      var account := db.ReadAccount(k);
      if account.Err? || account.value.deleted {
        return Err(AuthenticationFailed);
      }
      if !account.value.enabled {
        return Err(AccountDisabled);
      }
      var hash := db.ReadCode(k);
      if hash.Err? {
        return Err(hash.error);
      }
      if !BcryptVerify(hash.value, code) {
        var e := authentication.CountFailure(k);
        return Err(e);
      }
      db.DeleteCode(k);
      db.ClearAttempts(k);
      if !account.value.verified {
        var verified := db.SetVerified(k);
        if verified.Err? {
          return Err(AccountNotFound);
        }
      }
      var pair := authentication.Issue(k, client, accessJti, refreshJti);
      r := Ok(pair);
    }
  }
}
