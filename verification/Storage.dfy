/** Storage and the login handler's session work, proved against the functions in Oidc. */
module Storages {
  import opened Base
  import opened Schema
  import opened Sql
  import opened Values
  import opened Backends
  import opened AuthnServices
  import opened Oidc

  class Storage {
    const db: Backend
    const config: Config
    const authentication: AuthenticationService

    constructor (authentication: AuthenticationService)
      ensures this.authentication == authentication
      ensures db == authentication.db && config == authentication.config
    {
      this.authentication := authentication;
      this.db, this.config := authentication.db, authentication.config;
    }

    method CreateAuthRequest(tenant: Tenant, id: Id, client: ClientId, scopes: seq<string>) returns (r: Result<Value>)
      modifies db
      ensures Step(config, old(db.View()), Authorize(tenant, id, client, scopes)) == Reply(db.View(), r)
    {
      if tenant == "" { return Err(MissingTenant); }
      var row := AuthRequest(tenant, client, Nobody, scopes, [], 0, false, None, db.now + config.requestExpiry);
      var created := db.CreateRequest(id, row);
      r := if created.Ok? then Ok(RequestOf(id, row)) else Err(created.error);
    }

    method AuthRequestById(tenant: Tenant, id: Id) returns (r: Result<Value>)
      ensures Step(config, db.View(), LoadRequest(tenant, id)) == Reply(db.View(), r)
    {
      if tenant == "" { return Err(MissingTenant); }
      var read := db.ReadRequest(tenant, id);
      r := if read.Ok? then Ok(RequestOf(read.value.0, read.value.1)) else Err(read.error);
    }

    method AuthRequestByCode(tenant: Tenant, code: Secret) returns (r: Result<Value>)
      requires Constrained(db.View())
      ensures Step(config, db.View(), LoadByCode(tenant, code)) == Reply(db.View(), r)
    {
      if tenant == "" { return Err(MissingTenant); }
      var read := db.ReadRequestByCode(tenant, code);
      r := if read.Ok? then Ok(RequestOf(read.value.0, read.value.1)) else Err(read.error);
    }

    method AuthenticateRequest(tenant: Tenant, id: Id, subject: Subject, authTime: Time, amr: seq<string>)
      returns (r: Result<Value>)
      modifies db
      ensures Step(config, old(db.View()), Complete(tenant, id, subject, authTime, amr)) == Reply(db.View(), r)
    {
      if tenant == "" { return Err(MissingTenant); }
      var updated := db.AuthenticateRequest(tenant, id, subject, authTime, amr);
      r := if updated.Ok? then Ok(Nothing) else Err(updated.error);
    }

    method SaveAuthCode(tenant: Tenant, id: Id, code: Secret) returns (r: Result<Value>)
      modifies db
      ensures Step(config, old(db.View()), StoreCode(tenant, id, code)) == Reply(db.View(), r)
    {
      if tenant == "" { return Err(MissingTenant); }
      var updated := db.SaveCode(tenant, id, code);
      r := if updated.Ok? then Ok(Nothing) else Err(updated.error);
    }

    method DeleteAuthRequest(tenant: Tenant, id: Id) returns (r: Result<Value>)
      modifies db
      ensures Step(config, old(db.View()), DropRequest(tenant, id)) == Reply(db.View(), r)
    {
      if tenant == "" { return Err(MissingTenant); }
      var deleted := db.DeleteRequest(tenant, id);
      r := Ok(Nothing);
    }

    method CreateAccessToken(tenant: Tenant, request: TokenRequest, m: Mints) returns (r: Result<Value>)
      modifies db
      ensures Oidc.CreateAccessToken(config, old(db.View()), tenant, request, m) == Reply(db.View(), r)
    {
      var row := AccessRow(config, db.now, tenant, request, None);
      var created := db.CreateAccess(m.access, row);
      r := if created.Ok? then Ok(Minted(m.access, None, row.expires)) else Err(created.error);
    }

    /** No transaction spans the delete and the two inserts. */
    method CreateAccessAndRefreshTokens(tenant: Tenant, request: TokenRequest, current: Option<Secret>, m: Mints)
      returns (r: Result<Value>)
      requires Constrained(db.View())
      modifies db
      ensures Oidc.CreateAccessAndRefreshTokens(config, old(db.View()), tenant, request, current, m) ==
                Reply(db.View(), r)
    {
      if current.Some? {
        var spent := request.id;
        if !request.ForRenewal? {
          var read := db.ReadRefresh(tenant, current.value);
          if read.Err? {
            return Err(read.error);
          }
          spent := read.value.0;
        }
        var deleted := db.DeleteRefresh(tenant, spent);
        if deleted.Err? {
          return Err(deleted.error);
        }
      }
      var refreshed := db.CreateRefresh(m.refresh, RefreshRow(config, db.now, tenant, request, m.secret));
      if refreshed.Err? {
        return Err(refreshed.error);
      }
      var row := AccessRow(config, db.now, tenant, request, Some(m.refresh));
      var created := db.CreateAccess(m.access, row);
      r := if created.Ok? then Ok(Minted(m.access, Some(m.secret), row.expires)) else Err(created.error);
    }

    /** The token endpoint's use of the storage for an authorization code. */
    method ExchangeCode(tenant: Tenant, code: Secret, offline: bool, m: Mints) returns (r: Result<Value>)
      requires Constrained(db.View())
      modifies db
      ensures Step(config, old(db.View()), Exchange(tenant, code, offline, m)) == Reply(db.View(), r)
    {
      if tenant == "" { return Err(MissingTenant); }
      var read := db.ReadRequestByCode(tenant, code);
      if read.Err? {
        return Err(read.error);
      }
      var request := ForRequest(read.value.0, read.value.1);
      if offline {
        r := CreateAccessAndRefreshTokens(tenant, request, None, m);
      } else {
        r := CreateAccessToken(tenant, request, m);
      }
      if r.Ok? {
        var deleted := db.DeleteRequest(tenant, request.id);
      }
    }

    /** ... and for a refresh token. */
    method RefreshGrant(tenant: Tenant, token: Secret, scopes: Option<seq<string>>, m: Mints) returns (r: Result<Value>)
      requires Constrained(db.View())
      modifies db
      ensures Step(config, old(db.View()), Refresh(tenant, token, scopes, m)) == Reply(db.View(), r)
    {
      if tenant == "" { return Err(MissingTenant); }
      var read := db.ReadRefresh(tenant, token);
      if read.Err? {
        return Err(read.error);
      }
      var row := read.value.1;
      if scopes.Some? {
        row := row.(grant := row.grant.(scopes := scopes.value));
      }
      r := CreateAccessAndRefreshTokens(tenant, ForRenewal(read.value.0, row), Some(token), m);
    }

    method TokenRequestByRefreshToken(tenant: Tenant, token: Secret) returns (r: Result<Value>)
      requires Constrained(db.View())
      ensures Step(config, db.View(), LoadGrant(tenant, token)) == Reply(db.View(), r)
    {
      if tenant == "" { return Err(MissingTenant); }
      var read := db.ReadRefresh(tenant, token);
      r := if read.Ok? then Ok(GrantOf(read.value.0, read.value.1)) else Err(read.error);
    }

    method GetRefreshTokenInfo(tenant: Tenant, client: ClientId, token: Secret) returns (r: Result<Value>)
      requires Constrained(db.View())
      ensures Step(config, db.View(), Inspect(tenant, client, token)) == Reply(db.View(), r)
    {
      if tenant == "" { return Err(MissingTenant); }
      var read := db.ReadRefresh(tenant, token);
      if read.Err? || read.value.1.grant.client != client {
        return Err(TokenNotFound);
      }
      r := Ok(InfoOf(read.value.1.grant.subject, read.value.0));
    }

    method RevokeToken(tenant: Tenant, id: Id) returns (r: Result<Value>)
      modifies db
      ensures Step(config, old(db.View()), RevokeById(tenant, id)) == Reply(db.View(), r)
    {
      if tenant == "" { return Err(MissingTenant); }
      var read := db.ReadRefreshById(tenant, id);
      if read.Ok? {
        var deleted := db.DeleteRefresh(tenant, id);
        return Ok(Nothing);
      }
      var deleted := db.DeleteAccess(tenant, id);
      r := Ok(Nothing);
    }

    method TerminateSession(tenant: Tenant, subject: Subject, client: ClientId) returns (r: Result<Value>)
      modifies db
      ensures Step(config, old(db.View()), Terminate(tenant, subject, client)) == Reply(db.View(), r)
    {
      if tenant == "" { return Err(MissingTenant); }
      db.DeleteGrants(tenant, subject, client);
      r := Ok(Nothing);
    }

    method Logout(tenant: Tenant, cookie: Secret, client: ClientId) returns (r: Result<Value>)
      requires Constrained(db.View())
      modifies db
      ensures Step(config, old(db.View()), EndSession(tenant, cookie, client)) == Reply(db.View(), r)
    {
      if tenant == "" { return Err(MissingTenant); }
      var read := db.ReadBrowser(tenant, cookie);
      var deleted := db.DeleteBrowser(tenant, cookie);
      if read.Ok? {
        db.DeleteGrants(tenant, User(read.value.1.account), client);
      }
      r := Ok(Nothing);
    }

    method SignIn(tenant: Tenant, email: Email, password: string, id: Id, cookie: Secret) returns (r: Result<Value>)
      requires authentication.db == db && authentication.config == config
      modifies db
      ensures Step(config, old(db.View()), Login(tenant, email, password, id, cookie)) == Reply(db.View(), r)
    {
      if tenant == "" { return Err(MissingTenant); }
      var now := db.now;
      var account := authentication.VerifyPassword(AccountKey(tenant, email), password);
      if account.Err? {
        return Err(account.error);
      }
      var row := BrowserSession(tenant, Sha256(cookie), account.value.id, now, now + config.cookieExpiry);
      var created := db.CreateBrowser(id, row);
      r := if created.Ok? then Ok(CookieOf(cookie, account.value.id)) else Err(created.error);
    }

    method ReadCookie(tenant: Tenant, cookie: Secret) returns (r: Result<Value>)
      requires Constrained(db.View())
      ensures Step(config, db.View(), LoadCookie(tenant, cookie)) == Reply(db.View(), r)
    {
      if tenant == "" { return Err(MissingTenant); }
      var read := db.ReadBrowser(tenant, cookie);
      r := if read.Ok? then Ok(CookieOf(cookie, read.value.1.account)) else Err(read.error);
    }

    /** Shapes the claims scope by scope. */
    method SetUserinfo(tenant: Tenant, subject: Subject, scopes: seq<string>) returns (r: Result<Value>)
      requires Constrained(db.View())
      ensures Step(config, db.View(), IdTokenInfo(tenant, subject, scopes)) == Reply(db.View(), r)
    {
      if tenant == "" { return Err(MissingTenant); }
      if subject == Nobody { return Err(AccountNotFound); }
      var read := db.ReadAccountById(tenant, subject.id);
      if read.Err? {
        return Err(read.error);
      }
      var (k, account) := read.value;
      if account.deleted || !account.enabled { return Err(AccountDisabled); }
      var email := None;
      for i := 0 to |scopes|
        invariant email == if "email" in scopes[..i] then Some((k.email, account.verified)) else None
      {
        assert scopes[..i + 1] == scopes[..i] + [scopes[i]];
        if scopes[i] == "email" {
          email := Some((k.email, account.verified));
        }
      }
      assert scopes[..|scopes|] == scopes;
      r := Ok(ProfileOf(Profile(account.id, email)));
    }

    method SetUserinfoFromToken(tenant: Tenant, access: Id) returns (r: Result<Value>)
      requires Constrained(db.View())
      ensures Step(config, db.View(), Userinfo(tenant, access)) == Reply(db.View(), r)
    {
      if tenant == "" { return Err(MissingTenant); }
      var read := db.ReadAccess(tenant, access);
      if read.Err? {
        return Err(read.error);
      }
      r := SetUserinfo(tenant, read.value.1.grant.subject, read.value.1.grant.scopes);
    }
  }
}
