/** OIDC tokens: every column of every row an exchange or a refresh mints, and what reads and revokes answer. */
module TokenOutcomes {
  import opened Base
  import opened Schema
  import opened Sql
  import opened Values
  import opened Service
  import opened Growth
  import opened RequestOutcomes
  import Oidc

  // ---- code exchange ----

  /** The columns of the tokens, from those of the request that was loaded. */
  function AskedFor(q: AuthRequest): Grant {
    Grant(q.client, q.subject, [q.client], q.scopes)
  }

  /**
   * A code that reads is exchanged for tokens that carry the request's client, subject and scopes,
   * and a grant also its methods and login time; the grant's row and the reply hold the minted
   * values and the configured expiries, and the request is gone. Nothing else changes, and a code
   * that does not read changes nothing.
   */
  lemma ExchangeMints(c: Config, t: State, tenant: Tenant, code: Secret, offline: bool, m: Oidc.Mints, i: Id)
    requires tenant != "" && UniqueCodes(t.requests) && HasCode(t, i, code) && Unminted(t, m)
    ensures
      var x := Step(c, t, OnOidc(Oidc.Exchange(tenant, code, offline, m)));
      var q, refusal := t.requests[i], RowRefusal(t, tenant, t.requests[i]);
      var grant := RefreshToken(
        tenant, Sha256(m.secret), AskedFor(q), q.amr, q.authTime, t.now + c.issuance.refreshExpiry);
      var token := AccessToken(
        tenant, AskedFor(q), if offline then Some(m.refresh) else None, t.now + c.issuance.accessExpiry);
      if refusal.Some? then x == Reply(t, Err(refusal.value))
      else
        && x.result == Ok(Minted(m.access, if offline then Some(m.secret) else None, t.now + c.issuance.accessExpiry))
        && x.state == t.(requests := t.requests - {i},
                         refresh := if offline then t.refresh[m.refresh := grant] else t.refresh,
                         access := t.access[m.access := token])
  {
    FindsByCode(t, tenant, code);
    if RowRefusal(t, tenant, t.requests[i]).Some? {
      RefusedExchange(c, t, tenant, code, offline, m);
    } else if offline {
      ExchangeMintsPair(c, t, tenant, code, m, i);
    } else {
      ExchangeIs(c, t, tenant, code, offline, m, i);
      hide RowRefusal;
    }
    hide ReadRequestByCode, Oidc.CreatePair, UniqueCodes, Unminted, Oidc.ExchangeCode, Step;
  }

  lemma ExchangeMintsPair(c: Config, t: State, tenant: Tenant, code: Secret, m: Oidc.Mints, i: Id)
    requires tenant != "" && i in t.requests && ReadRequestByCode(t, tenant, code) == Ok((i, t.requests[i]))
    requires t.requests[i].tenant == tenant && Unminted(t, m)
    ensures
      var q := t.requests[i];
      var grant := RefreshToken(
        tenant, Sha256(m.secret), AskedFor(q), q.amr, q.authTime, t.now + c.issuance.refreshExpiry);
      var token := AccessToken(tenant, AskedFor(q), Some(m.refresh), t.now + c.issuance.accessExpiry);
      Step(c, t, OnOidc(Oidc.Exchange(tenant, code, true, m))) ==
      Reply(t.(requests := t.requests - {i}, refresh := t.refresh[m.refresh := grant],
               access := t.access[m.access := token]),
            Ok(Minted(m.access, Some(m.secret), t.now + c.issuance.accessExpiry)))
  {
    PairMinted(c, t, tenant, Oidc.ForRequest(i, t.requests[i]), m);
    ExchangeIs(c, t, tenant, code, true, m, i);
    hide ReadRequestByCode, Oidc.CreatePair, Unminted, Step;
  }

  lemma RefusedExchange(c: Config, t: State, tenant: Tenant, code: Secret, offline: bool, m: Oidc.Mints)
    requires tenant != ""
    ensures
      var read := ReadRequestByCode(t, tenant, code);
      read.Err? ==> Step(c, t, OnOidc(Oidc.Exchange(tenant, code, offline, m))) == Reply(t, Err(read.error))
  {
    hide ReadRequestByCode;
  }

  /** An exchange is the minting for its request, and the delete of the request after it. */
  lemma ExchangeIs(c: Config, t: State, tenant: Tenant, code: Secret, offline: bool, m: Oidc.Mints, i: Id)
    requires tenant != "" && i in t.requests && ReadRequestByCode(t, tenant, code) == Ok((i, t.requests[i]))
    requires t.requests[i].tenant == tenant && m.access !in t.access
    ensures
      var r := Oidc.ForRequest(i, t.requests[i]);
      var pair := Oidc.CreatePair(c, t, tenant, r, m);
      var token := Oidc.AccessRow(c, t.now, tenant, r, None);
      var single := Reply(t.(access := t.access[m.access := token]), Ok(Minted(m.access, None, token.expires)));
      var minted := if offline then pair else single;
      minted.result.Ok? && minted.state.requests == t.requests ==>
        Step(c, t, OnOidc(Oidc.Exchange(tenant, code, offline, m))) ==
        Reply(minted.state.(requests := t.requests - {i}), minted.result)
  {
    hide ReadRequestByCode, Oidc.CreatePair, Oidc.AccessRow;
    var token := Oidc.AccessRow(c, t.now, tenant, Oidc.ForRequest(i, t.requests[i]), None);
    assert token.parent.None? by { ParentOf(c, t.now, tenant, Oidc.ForRequest(i, t.requests[i])); }
  }

  lemma ParentOf(c: Config, now: Time, tenant: Tenant, r: Oidc.TokenRequest)
    ensures Oidc.AccessRow(c, now, tenant, r, None).parent.None?
  {
  }

  /** A code no row has is refused, and nothing is minted. */
  lemma UnknownCodeMintsNothing(c: Config, t: State, tenant: Tenant, code: Secret, offline: bool, m: Oidc.Mints)
    requires tenant != "" && UniqueCodes(t.requests) && forall i :: !HasCode(t, i, code)
    ensures Step(c, t, OnOidc(Oidc.Exchange(tenant, code, offline, m))) == Reply(t, Err(AuthRequestNotFound))
  {
    FindsByCode(t, tenant, code);
    hide ReadRequestByCode;
  }

  lemma PairMinted(c: Config, t: State, tenant: Tenant, r: Oidc.TokenRequest, m: Oidc.Mints)
    requires Unminted(t, m)
    ensures
      Oidc.CreatePair(c, t, tenant, r, m) ==
      Reply(t.(refresh := t.refresh[m.refresh := Oidc.RefreshRow(c, t.now, tenant, r, m.secret)],
               access := t.access[m.access := Oidc.AccessRow(c, t.now, tenant, r, Some(m.refresh))]),
            Ok(Minted(m.access, Some(m.secret), t.now + c.issuance.accessExpiry)))
  {
    var row := Oidc.RefreshRow(c, t.now, tenant, r, m.secret);
    assert row.hash == Sha256(m.secret);
    assert RefreshWithHash(t, row.hash).None?;
    hide RefreshWithHash, Oidc.RefreshRow;
  }

  // ---- refresh ----

  /** Why a grant is not read under the tenant; None when it is. */
  ghost function GrantRefusal(t: State, tenant: Tenant, row: RefreshToken): Option<Error> {
    if row.tenant != tenant then Some(TenantMismatch)
    else if row.expires < t.now then Some(TokenNotFound)
    else None
  }

  ghost predicate HasToken(t: State, i: Id, token: Secret) {
    i in t.refresh && t.refresh[i].hash == Sha256(token)
  }

  lemma FindsByToken(t: State, tenant: Tenant, token: Secret)
    requires UniqueRefreshHashes(t.refresh)
    ensures (forall i :: !HasToken(t, i, token)) ==> ReadRefresh(t, tenant, token) == Err(TokenNotFound)
    ensures forall i: Id :: HasToken(t, i, token) ==>
              var refusal := GrantRefusal(t, tenant, t.refresh[i]);
              ReadRefresh(t, tenant, token) == if refusal.Some? then Err(refusal.value) else Ok((i, t.refresh[i]))
  {
    forall i: Id | HasToken(t, i, token) ensures RefreshWithHash(t, Sha256(token)) == Some(i) {
      FindsRefresh(t, i);
    }
    assert (forall i :: !HasToken(t, i, token)) ==> RefreshWithHash(t, Sha256(token)).None?;
    hide RefreshWithHash, UniqueRefreshHashes;
  }

  /** The grant as it goes on, its scopes narrowed if that was asked. */
  function GoesOn(g: Grant, narrowed: Option<seq<string>>): Grant {
    Grant(g.client, g.subject, g.audience, if narrowed.Some? then narrowed.value else g.scopes)
  }

  function NotOf(access: map<Id, AccessToken>, i: Id): map<Id, AccessToken> {
    map a | a in access && access[a].parent != Some(i) :: access[a]
  }

  lemma NotOfIsNotUnder(access: map<Id, AccessToken>, i: Id)
    ensures NotOf(access, i) == map a | a in access && !Under(access[a], {i}) :: access[a]
  {
  }

  /**
   * A refresh token that reads is replaced, with the tokens under it, by a pair for the same
   * client, subject, audience, methods and login time, with the narrowed scopes and new expiries,
   * the access token under the new grant. Nothing else changes, and a token that does not read
   * changes nothing.
   */
  lemma RefreshMints(
    c: Config, t: State, tenant: Tenant, token: Secret, narrowed: Option<seq<string>>, m: Oidc.Mints, i: Id)
    requires tenant != "" && UniqueRefreshHashes(t.refresh) && HasToken(t, i, token) && Unminted(t, m)
    ensures
      var x := Step(c, t, OnOidc(Oidc.Refresh(tenant, token, narrowed, m)));
      var f, refusal := t.refresh[i], GrantRefusal(t, tenant, t.refresh[i]);
      var (grant, expires) := (GoesOn(f.grant, narrowed), t.now + c.issuance.accessExpiry);
      var next := RefreshToken(tenant, Sha256(m.secret), grant, f.amr, f.authTime, t.now + c.issuance.refreshExpiry);
      if refusal.Some? then x == Reply(t, Err(refusal.value))
      else
        && x.result == Ok(Minted(m.access, Some(m.secret), expires))
        && x.state == t.(refresh := (t.refresh - {i})[m.refresh := next],
                         access := NotOf(t.access, i)[m.access := AccessToken(tenant, grant, Some(m.refresh), expires)])
  {
    FindsByToken(t, tenant, token);
    var f := t.refresh[i];
    var r := Oidc.ForRenewal(i, f.(grant := GoesOn(f.grant, narrowed)));
    if GrantRefusal(t, tenant, f).None? {
      var dropped := DropRefresh(t, {i});
      NotOfIsNotUnder(t.access, i);
      assert dropped == t.(refresh := t.refresh - {i}, access := NotOf(t.access, i));
      assert Unminted(dropped, m);
      PairMinted(c, dropped, tenant, r, m);
      RefreshIs(c, t, tenant, token, narrowed, m, i);
    }
    hide ReadRefresh, Oidc.CreatePair, UniqueRefreshHashes, DropRefresh, NotOf, Unminted;
  }

  /** A refresh is the delete of its row and the pair for what it goes on as. */
  lemma RefreshIs(
    c: Config, t: State, tenant: Tenant, token: Secret, narrowed: Option<seq<string>>, m: Oidc.Mints, i: Id)
    requires tenant != "" && i in t.refresh && ReadRefresh(t, tenant, token) == Ok((i, t.refresh[i]))
    requires t.refresh[i].tenant == tenant
    ensures
      var f := t.refresh[i];
      var r := Oidc.ForRenewal(i, f.(grant := GoesOn(f.grant, narrowed)));
      Step(c, t, OnOidc(Oidc.Refresh(tenant, token, narrowed, m))) ==
      Oidc.CreatePair(c, DropRefresh(t, {i}), tenant, r, m)
  {
    hide ReadRefresh, Oidc.CreatePair, DropRefresh;
  }

  lemma UnknownTokenMintsNothing(
    c: Config, t: State, tenant: Tenant, token: Secret, narrowed: Option<seq<string>>, m: Oidc.Mints)
    requires tenant != "" && UniqueRefreshHashes(t.refresh) && forall i :: !HasToken(t, i, token)
    ensures Step(c, t, OnOidc(Oidc.Refresh(tenant, token, narrowed, m))) == Reply(t, Err(TokenNotFound))
  {
    FindsByToken(t, tenant, token);
    hide ReadRefresh;
  }

  // ---- reads ----

  lemma LoadGrantIff(c: Config, t: State, tenant: Tenant, token: Secret)
    requires tenant != "" && UniqueRefreshHashes(t.refresh)
    ensures
      var x := Step(c, t, OnOidc(Oidc.LoadGrant(tenant, token)));
      && x.state == t
      && ((forall i :: !HasToken(t, i, token)) ==> x.result == Err(TokenNotFound))
      && (forall i: Id :: HasToken(t, i, token) ==>
            var refusal := GrantRefusal(t, tenant, t.refresh[i]);
            x.result == if refusal.Some? then Err(refusal.value) else Ok(GrantOf(i, t.refresh[i])))
  {
    FindsByToken(t, tenant, token);
    hide ReadRefresh, GrantRefusal, UniqueRefreshHashes;
  }

  /** Only the client it was issued to is told of a refresh token; to another it is not there. */
  lemma InspectIff(c: Config, t: State, tenant: Tenant, client: ClientId, token: Secret)
    requires tenant != "" && UniqueRefreshHashes(t.refresh)
    ensures
      var x := Step(c, t, OnOidc(Oidc.Inspect(tenant, client, token)));
      && x.state == t
      && ((forall i :: !HasToken(t, i, token)) ==> x.result == Err(TokenNotFound))
      && (forall i: Id :: HasToken(t, i, token) ==>
            var f := t.refresh[i];
            x.result ==
            if f.tenant == tenant && t.now <= f.expires && f.grant.client == client then Ok(InfoOf(f.grant.subject, i))
            else Err(TokenNotFound))
  {
    FindsByToken(t, tenant, token);
    hide ReadRefresh, UniqueRefreshHashes;
  }

  // ---- revocation ----

  /**
   * Revoking always succeeds. The tenant's unexpired grant goes with the tokens under it; failing
   * that, the tenant's access token of that id goes; failing that, nothing.
   */
  lemma RevokeByIdIff(c: Config, t: State, tenant: Tenant, id: Id)
    requires tenant != ""
    ensures
      var x := Step(c, t, OnOidc(Oidc.RevokeById(tenant, id)));
      x == Reply(
             if id in t.refresh && GrantRefusal(t, tenant, t.refresh[id]).None? then
               t.(refresh := t.refresh - {id}, access := NotOf(t.access, id))
             else if id in t.access && t.access[id].tenant == tenant then t.(access := t.access - {id})
             else t,
             Ok(Nothing))
  {
    NotOfIsNotUnder(t.access, id);
    hide NotOf;
  }

  // ---- userinfo ----

  /** What an account's claims are under these scopes: its subject, and the email pair when asked for. */
  ghost function ClaimsUnder(t: State, k: AccountKey, scopes: seq<string>): Result<Value>
    requires k in t.accounts
  {
    var a := t.accounts[k];
    if a.deleted || !a.enabled then Err(AccountDisabled)
    else Ok(ProfileOf(Profile(a.id, if "email" in scopes then Some((k.email, a.verified)) else None)))
  }

  lemma FindsById(t: State, k: AccountKey, tenant: Tenant)
    requires UniqueAccountIds(t.accounts) && k in t.accounts
    ensures ReadAccountById(t, tenant, t.accounts[k].id) ==
            if k.tenant == tenant then Ok((k, t.accounts[k])) else Err(AccountNotFound)
  {
    FindsAccount(t, k);
    hide AccountWithId, UniqueAccountIds;
  }

  /** The id token's claims: those of the account, in its own tenant only. */
  lemma IdTokenInfoIff(c: Config, t: State, tenant: Tenant, k: AccountKey, scopes: seq<string>)
    requires tenant != "" && UniqueAccountIds(t.accounts) && k in t.accounts
    ensures
      Step(c, t, OnOidc(Oidc.IdTokenInfo(tenant, User(t.accounts[k].id), scopes))) ==
      Reply(t, if k.tenant == tenant then ClaimsUnder(t, k, scopes) else Err(AccountNotFound))
  {
    FindsById(t, k, tenant);
    hide ReadAccountById, UniqueAccountIds;
  }

  lemma NobodyHasNoInfo(c: Config, t: State, tenant: Tenant, subject: Subject, scopes: seq<string>)
    requires tenant != ""
    requires subject == Nobody || forall k :: k in t.accounts ==> User(t.accounts[k].id) != subject
    ensures Step(c, t, OnOidc(Oidc.IdTokenInfo(tenant, subject, scopes))) == Reply(t, Err(AccountNotFound))
  {
  }

  /** The userinfo of an access token: the claims of its own subject under its own scopes. */
  lemma UserinfoIff(c: Config, t: State, tenant: Tenant, id: Id, k: AccountKey)
    requires tenant != "" && UniqueAccountIds(t.accounts) && k in t.accounts
    requires id in t.access ==> t.access[id].grant.subject == User(t.accounts[k].id)
    ensures
      Step(c, t, OnOidc(Oidc.Userinfo(tenant, id))) ==
      Reply(t,
            if id !in t.access then Err(TokenNotFound)
            else if t.access[id].tenant != tenant then Err(TenantMismatch)
            else if t.access[id].expires < t.now then Err(TokenNotFound)
            else if k.tenant != tenant then Err(AccountNotFound)
            else ClaimsUnder(t, k, t.access[id].grant.scopes))
  {
    FindsById(t, k, tenant);
    hide ReadAccountById, UniqueAccountIds;
  }
}
