/** The janitor: each sweep takes exactly the rows that are past their time, and nothing else. */
module Sweeps {
  import opened Base
  import opened Schema
  import opened Sql
  import opened Values
  import opened Service

  /** The rows of the table that are not past their time, as they were. */
  ghost predicate Kept<K(!new), V(!new)>(m: map<K, V>, n: map<K, V>, lasts: V -> bool) {
    && (forall k :: k in n <==> k in m && lasts(m[k]))
    && (forall k :: k in n ==> n[k] == m[k])
  }

  /** The sessions, logon codes, reset tokens, requests and browser sessions whose expiry has not passed stay. */
  lemma ExpirySweepIsExact(c: Config, t: State, sweep: Sweep)
    requires !sweep.StaleAttempts? && !sweep.ExpiredTokens?
    ensures
      var x := Step(c, t, Janitor(sweep));
      && x.result == Ok(Nothing)
      && x.state == t.(sessions := x.state.sessions, codes := x.state.codes, resets := x.state.resets,
                       requests := x.state.requests, browsers := x.state.browsers)
      && Kept(t.sessions, x.state.sessions, (row: Session) => sweep.ExpiredSessions? ==> t.now <= row.expires)
      && Kept(t.codes, x.state.codes, (row: LogonCode) => sweep.ExpiredCodes? ==> t.now <= row.expires)
      && Kept(t.resets, x.state.resets, (row: PasswordReset) => sweep.ExpiredResets? ==> t.now <= row.expires)
      && Kept(t.requests, x.state.requests, (row: AuthRequest) => sweep.ExpiredRequests? ==> t.now <= row.expires)
      && Kept(t.browsers, x.state.browsers, (row: BrowserSession) => sweep.ExpiredBrowsers? ==> t.now <= row.expires)
  {
  }

  /** Attempt rows go by the time since the last failure, locked or not. */
  lemma StaleSweepIsExact(c: Config, t: State, olderThan: Time)
    ensures
      var x := Step(c, t, Janitor(StaleAttempts(olderThan)));
      && x.result == Ok(Nothing) && x.state == t.(attempts := x.state.attempts)
      && Kept(t.attempts, x.state.attempts, (row: Attempt) => t.now - row.modified <= olderThan)
  {
  }

  /** Expired access tokens go, and expired grants with every token under them. */
  lemma TokenSweepIsExact(c: Config, t: State)
    ensures
      var x := Step(c, t, Janitor(ExpiredTokens));
      && x.result == Ok(Nothing) && x.state == t.(refresh := x.state.refresh, access := x.state.access)
      && Kept(t.refresh, x.state.refresh, (row: RefreshToken) => t.now <= row.expires)
      && Kept(t.access, x.state.access,
              (row: AccessToken) =>
                && t.now <= row.expires
                && (row.parent.Some? && row.parent.value in t.refresh ==> t.now <= t.refresh[row.parent.value].expires))
  {
  }

  /** Time and a reload of the cached keys touch no table. */
  lemma ClockAndKeys(c: Config, t: State, delay: nat, ring: Keyring)
    ensures Step(c, t, Tick(delay)) == Reply(t.(now := t.now + delay), Ok(Nothing))
    ensures Step(c, t, Reload(ring)) == Reply(t.(ring := ring), Ok(Nothing))
  {
  }
}
