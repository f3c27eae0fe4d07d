/** Authorization requests: what each operation on them answers and leaves, read off the table. */
module RequestOutcomes {
  import opened Base
  import opened Schema
  import opened Sql
  import opened Values
  import opened Service
  import Oidc

  /** Why a row is not read under the tenant; None when it is. */
  ghost function RowRefusal(t: State, tenant: Tenant, row: AuthRequest): Option<Error> {
    if row.tenant != tenant then Some(TenantMismatch)
    else if row.expires < t.now then Some(AuthRequestNotFound)
    else None
  }

  ghost predicate HasCode(t: State, i: Id, code: Secret) {
    i in t.requests && t.requests[i].code == Some(Sha256(code))
  }

  lemma FindsByCode(t: State, tenant: Tenant, code: Secret)
    requires UniqueCodes(t.requests)
    ensures (forall i :: !HasCode(t, i, code)) ==> ReadRequestByCode(t, tenant, code) == Err(AuthRequestNotFound)
    ensures forall i: Id :: HasCode(t, i, code) ==>
              var refusal := RowRefusal(t, tenant, t.requests[i]);
              ReadRequestByCode(t, tenant, code) ==
              if refusal.Some? then Err(refusal.value) else Ok((i, t.requests[i]))
  {
    forall i: Id | HasCode(t, i, code) ensures RequestWithCode(t, Sha256(code)) == Some(i) {
      FindsRequest(t, i, Sha256(code));
    }
    assert (forall i :: !HasCode(t, i, code)) ==> RequestWithCode(t, Sha256(code)).None?;
    hide RequestWithCode, UniqueCodes;
  }

  /** Nothing is done without a tenant. */
  lemma NeedsATenant(c: Config, t: State, op: Oidc.Op)
    requires op.tenant == ""
    ensures Step(c, t, OnOidc(op)) == Reply(t, Err(MissingTenant))
  {
  }

  /** A request begins with what was asked for, no login and an expiry. */
  lemma AuthorizeIff(c: Config, t: State, tenant: Tenant, id: Id, client: ClientId, scopes: seq<string>)
    requires tenant != ""
    ensures
      var row := AuthRequest(tenant, client, Nobody, scopes, [], 0, false, None, t.now + c.requestExpiry);
      Step(c, t, OnOidc(Oidc.Authorize(tenant, id, client, scopes))) ==
      if id in t.requests then Reply(t, Err(Duplicate))
      else Reply(t.(requests := t.requests[id := row]), Ok(RequestOf(id, row)))
  {
  }

  lemma LoadIff(c: Config, t: State, tenant: Tenant, id: Id)
    requires tenant != ""
    ensures
      Step(c, t, OnOidc(Oidc.LoadRequest(tenant, id))) ==
      Reply(t,
            if id !in t.requests then Err(AuthRequestNotFound)
            else
              var refusal := RowRefusal(t, tenant, t.requests[id]);
              if refusal.Some? then Err(refusal.value) else Ok(RequestOf(id, t.requests[id])))
  {
  }

  lemma LoadByCodeIff(c: Config, t: State, tenant: Tenant, code: Secret)
    requires tenant != "" && UniqueCodes(t.requests)
    ensures
      var x := Step(c, t, OnOidc(Oidc.LoadByCode(tenant, code)));
      && x.state == t
      && ((forall i :: !HasCode(t, i, code)) ==> x.result == Err(AuthRequestNotFound))
      && (forall i: Id :: HasCode(t, i, code) ==>
            var refusal := RowRefusal(t, tenant, t.requests[i]);
            x.result == if refusal.Some? then Err(refusal.value) else Ok(RequestOf(i, t.requests[i])))
  {
    FindsByCode(t, tenant, code);
    hide ReadRequestByCode, RowRefusal, UniqueCodes;
  }

  /** Completing writes the login into the tenant's row, expired or not, and keeps what was asked for. */
  lemma CompleteIff(c: Config, t: State, tenant: Tenant, id: Id, subject: Subject, authTime: Time, amr: seq<string>)
    requires tenant != ""
    ensures
      var x := Step(c, t, OnOidc(Oidc.Complete(tenant, id, subject, authTime, amr)));
      if id !in t.requests || t.requests[id].tenant != tenant then x == Reply(t, Err(AuthRequestNotFound))
      else
        var q := t.requests[id];
        var row := AuthRequest(tenant, q.client, subject, q.scopes, amr, authTime, true, q.code, q.expires);
        x == Reply(t.(requests := t.requests[id := row]), Ok(Nothing))
  {
  }

  /** Storing a code changes the tenant's row by that code alone, unless another row has it. */
  lemma StoreCodeIff(c: Config, t: State, tenant: Tenant, id: Id, code: Secret)
    requires tenant != ""
    ensures
      var x := Step(c, t, OnOidc(Oidc.StoreCode(tenant, id, code)));
      if id !in t.requests || t.requests[id].tenant != tenant then x == Reply(t, Err(AuthRequestNotFound))
      else if exists j :: j != id && HasCode(t, j, code) then x == Reply(t, Err(Duplicate))
      else
        var q := t.requests[id];
        var row := AuthRequest(
          tenant, q.client, q.subject, q.scopes, q.amr, q.authTime, q.done, Some(Sha256(code)), q.expires);
        x == Reply(t.(requests := t.requests[id := row]), Ok(Nothing))
  {
    assert (exists j :: j != id && HasCode(t, j, code)) <==>
           (exists j :: j in t.requests && j != id && t.requests[j].code == Some(Sha256(code))) by {
      if j :| j in t.requests && j != id && t.requests[j].code == Some(Sha256(code)) { assert HasCode(t, j, code); }
      if j :| j != id && HasCode(t, j, code) { assert j in t.requests && t.requests[j].code == Some(Sha256(code)); }
    }
    hide HasCode;
  }

  /** Deleting takes the tenant's row, and one that is already gone is a success. */
  lemma DropIff(c: Config, t: State, tenant: Tenant, id: Id)
    requires tenant != ""
    ensures
      Step(c, t, OnOidc(Oidc.DropRequest(tenant, id))) ==
      Reply(if id in t.requests && t.requests[id].tenant == tenant then t.(requests := t.requests - {id}) else t,
            Ok(Nothing))
  {
  }
}
