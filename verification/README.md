# Authentication state of an

A Dafny model of what the authentication service *an* keeps in its database, and proofs of what
its protocols promise over whole runs: sessions, lockout, one-time secrets, OIDC grants, credential
changes, signing keys and migrations. Verify it with `dafny verify dfyconfig.toml`.

## How the model is built

- `Schema.State` is the database, the clock and the cached key ring. `Sql` has one function for
  every SQL statement the repositories issue; each is one atomic step. `Backends.Backend` is the
  database as an object whose fields are the tables, and each repository method is proved to do
  what its statement says.
- `Accounts`, `Authn`, `LogonCodes` and `Oidc` say what each service operation does as a function
  on states; the classes in `AccountService`, `AuthnService`, `LogonCodeService` and `Storage` run
  the same operations step by step on a `Backend`, and each of their methods, like each of
  `Backend`'s, `Tokenizer`'s and `Migrator`'s, is proved to reach the state and the result that the
  corresponding function gives. The table below lists the theorems about those functions, and of
  the methods only those whose contract says more than that. A transaction is a snapshot that is
  put back on any error; `Fault` numbers the statement at which the connection fails.
- What those functions do is said once more on the tables alone, without naming them: `Logons`,
  `AccountOutcomes`, `Pairs`, `RequestOutcomes`, `TokenOutcomes`, `Logouts` and `Sweeps` give for
  every operation when it succeeds, what it answers and which rows it leaves, and `Journeys` puts
  them in a row.
- `Service` puts all of it together: operations, the janitor's sweeps, the clock and key reloads,
  and runs of them. Ids, jtis and secrets come with the operation that mints them, and `WellMinted`
  says that a run mints no value twice. sha256 is injective, bcrypt is a match relation, and a
  signature verifies under the key it was made with.
- In the theorems about runs of `Service.Op` the operations are atomic. `Lineage` interleaves
  refresh rotation statement by statement, `Rotation` interleaves the steps of api-key renewals,
  `Keys` lets inserts and other reloads fall between the read and the swap of a reload, and
  `Migrate` stops a run at any statement. `Endings` says on the machine of `Lineage` what the ends of
  a grant are worth there.

## Where the code and its description part

- `AuthenticateRequest` and `SaveCode` do not look at `expires` (internal/oidc/auth_request_repository.go:112-125),
  so until the janitor comes by they succeed on a request that reads as not found, although the
  sweep is described as reclaiming dead rows only (cmd/an/main.go:173-176). The states in which it
  shows are given by `Invisible.BlindUpdatesSeeTheSweep`, a run that reaches one by
  `Invisible.ExpiredRequestCompletesUntilSwept`.
- `Validate` accepts an expired session row until it is swept (internal/authn/authn.go:243-254), so
  a pair that was never acknowledged rides on an earlier session of the same client:
  `SessionExpiry.ValidateSeesTheSweep`, and a run that reaches it,
  `SessionExpiry.UnacknowledgedPairRidesOnExpiredSession`.
- A credential change ends the account's sessions (internal/accounts/accounts.go:255-265), but a pair issued
  before it can be acknowledged again after it, while its tokens verify, and then answers:
  `Finality.PairFromBeforeAnswersAgain`.
- A credential change ends the account's grants (internal/oidc/revoker.go:24-29), but token creation is three
  statements with no transaction around them (internal/oidc/storage.go:204-234). A call that stands before
  its refresh insert when the change commits puts a live grant of the account in afterwards: a code
  exchange, which carries its request in memory, or a renewal past its delete. A renewal before its
  delete does not: `Endings.InFlightLodgesIff`, `Endings.LodgedGrantIsGood`, and for an exchange
  without a refresh token `Finality.LoadedAccessTokenSurvives`.
- Likewise a logout or a revocation: the grant it ends stays ended if and only if no renewal of it is
  between its delete and its insert: `Endings.EndingIsFinalIff`.
- A login checks the password and then inserts its session (api/oidc/oidc_handlers.go:124-141), so one
  that passed the check before a credential change signs the account on after it:
  `Finality.CheckedLoginSurvives`.
- Access expiry not above refresh expiry keeps a token within its grant when the pair is minted at
  one instant, but not when time passes between the two inserts: `Lineage.InterleavedTokenNestsIff`.
- Migrations are described as applied in version order (internal/db/migrate.go:21-25); they are applied in
  name order. For plain digits the two are the same for prefixes of one width, and for a shorter
  prefix and a longer one unless the shorter lies from the head of the longer up to its value: 1 and
  20 are in order, 10 applies before 9. `VersionOrder.RunsApplyInVersionOrderIff` is the exact
  condition, signs included; `VersionOrder.UnequalWidthsMissort` is a directory outside it.

## Model

| member | source | states |
|---|---|---|
| Noninterference.TenantsDoNotInterfere | internal/oidc/token_repository.go:64-185 | For every run, erasing the operations of all other tenants leaves one tenant's rows as they were and every result it was given, except that a mismatch may become a not-found |
| Noninterference.OthersAreUnobservable | internal/oidc/auth_request_repository.go:77-110 | Two databases with the same rows of a tenant, and two runs with the same operations of it, end with the same rows of it, and every success in either is the same success in the other |
| Noninterference.StepShows | internal/authn/authn.go:85-168 | One operation of any service, under one tenant: the view of that tenant moves as if the others' rows were not there, the view of every other tenant does not move |
| Invisible.SweepsAreInvisible | internal/oidc/token_repository.go:211-222 | Databases that agree on the unexpired OIDC rows keep agreeing, with the sweeps in one run and left out of the other, when access expiry is not above refresh expiry. Every answer is the same, or a mismatch for a not-found; the two UPDATEs on requests answer the same exactly when their request is the tenant's own and expired in both databases or in neither |
| Invisible.BlindUpdatesSeeTheSweep | internal/oidc/auth_request_repository.go:112-125 | The two UPDATEs on requests tell a swept database from an unswept one exactly when the request is the tenant's own and has expired |
| Invisible.ExpiredRequestCompletesUntilSwept | internal/oidc/auth_request_repository.go:112-118 | A run reaches such a state: a request is authorized, its expiry passes, completing it succeeds, and after the sweep it fails |
| Expiries.CascadeAgrees | internal/db/migrations/0010_oidc.sql:55-65 | Deleting the same live grants from two agreeing databases leaves them agreeing, cascades included, because no unexpired token hangs under an expired grant |
| Guesses.GuessRateIsBounded | internal/authn/authn.go:66-83 | In any window without a success or a reset, with a stale age of at least the lock length, at most max * (floor(window / lockFor) + 1) password or code guesses against an account are compared |
| Guesses.RunKeepsLockInv | internal/authn/failed_attempt_repository.go:58-77 | In every reachable state, attempts one at a time: the count never passes the limit, a row is locked exactly at it, and the lock ends lockFor after the last attempt |
| Guesses.SweepTakesLockIff | internal/authn/failed_attempt_repository.go:86-96 | A stale sweep removes an active lock exactly when its age is shorter than the time since the last attempt, which is shorter than lockFor |
| Guesses.PatientSweepKeepsLocks | cmd/an/main.go:205 | With a stale age of at least lockFor a sweep never removes an active lock |
| Guesses.BlockedChangesNothing | internal/authn/authn.go:213-227 | While a lock runs, an attempt by password, by code or at the login form reports the lock and changes nothing, right or wrong |
| Guesses.StepRow | internal/authn/authn.go:231-241 | What any operation does to any account's attempt row: a guess counts and may lock, a success or a reset clears, nothing else touches it but a lapse |
| Lineage.LineagesAreLinear | internal/oidc/storage.go:204-234 | Statement by statement, under any interleaving: live refresh rows plus renewals between their delete and their insert never exceed one for each original grant, and every row of it is for that grant's tenant, client, subject and audience |
| Lineage.StepsRefineRefresh | internal/oidc/storage.go:204-247 | With nothing in between, the load, the delete and the two inserts leave what the atomic refresh leaves, failures included |
| Lineage.StepsRefineExchange | internal/oidc/storage.go:204-234 | ... and an exchange's inserts, with the delete of its request, what the atomic exchange leaves |
| Lineage.OneRenewalWins | internal/oidc/token_repository.go:162-168 | Of two renewals of one token, the first to delete the row goes on and the other fails |
| Lineage.RevokedGrantIssuesNothing | internal/db/migrations/0010_oidc.sql:55-65 | A grant revoked between the two inserts issues no access token: the foreign key refuses it |
| Lineage.InterleavedTokenNestsIff | internal/oidc/storage.go:458-498 | Statement by statement a token ends no later than its grant exactly when the delay between the two inserts plus access expiry is not above refresh expiry |
| Rotation.RenewalsNeverExceedInstalls | internal/authn/session_repository.go:85-96 | Under any interleaving of renewal steps with every other operation: for every session and jti, successful renewals plus one if it is current never exceed the times it was acknowledged or rotated in |
| Rotation.RacesHaveOneWinner | internal/authn/authn.go:131-160 | Among renewals of one jti, with nothing else touching the session: exactly one wins if it is current and some call reaches the rotation, otherwise none |
| Rotation.FinishedRaceHasItsWinner | internal/authn/authn.go:131-160 | ... and one call that runs to its end is enough: if its token verifies and its account is live all along, the current jti is renewed exactly once, by whichever call |
| Rotation.RenewalsFromRest | internal/authn/session_repository.go:85-96 | The accounting holds from any database at rest, each session's jti counted once |
| Rotation.StepsRefineRenew | internal/authn/authn.go:131-160 | Run back to back, the four steps of a renewal leave what the atomic operation leaves, and win exactly when it succeeds |
| Logons.PasswordLogonIff | internal/authn/authn.go:57-83 | A password logon succeeds exactly when no lock runs and the account is there, undeleted, enabled, verified and stores this password; otherwise the first guard that fails gives the error, a guess that locks being told of its lock; and what the attempt row is afterwards, with nothing else changed |
| Logons.LoginIff | api/oidc/oidc_handlers.go:124-141 | The login form succeeds on the same condition with the same errors, and opens exactly one browser session, of that account, under the cookie it mints |
| Logons.CodeLogonIff | internal/authn/logon_code.go:78-124 | A code logon succeeds exactly when no lock runs, the code is six digits, the account is there, undeleted and enabled, and its slot holds this code in time; it then empties the slot and the attempt row and verifies the account, and every other row stays; each failing guard gives its error |
| Logons.RequestIff | internal/authn/logon_code.go:49-73 | A code is stored, with its expiry, for exactly the accounts that are there, undeleted and enabled, verified or not |
| AccountOutcomes.OutcomeIff | internal/accounts/accounts.go:92-277 | Every account operation succeeds exactly when none of its guards on the tables refuses it, a credential change also needing its connection; its error otherwise, its answer, and which tables it may write |
| AccountOutcomes.AccountFollows | internal/accounts/account_repository.go:47-148 | For every operation of the service and every account: the row afterwards, column by column, from the row before and the operation's arguments |
| AccountOutcomes.OnlyTheLastPasswordLogsOn | internal/authn/authn.go:66-83 | Along any run, a logon that the guards let through succeeds exactly with the last password registered, reset or changed |
| AccountOutcomes.CodeLogonVerifiesForGood | internal/authn/logon_code.go:117-121 | After a code logon, in every later state the account is verified with no token left, a password logon does not stop at its verification, and no verification token works |
| Pairs.LogonIssues | internal/authn/authn.go:57-64 | A successful password logon answers a pair whose every claim is the account's, the client's and the configuration's, signed with the current key |
| Pairs.CodeLogonIssues | internal/authn/logon_code.go:122-123 | ... and so does a code logon |
| Pairs.AckIff | internal/authn/authn.go:85-109 | Acknowledging succeeds exactly for two good tokens of its tenant, one client and one subject, and makes the refresh token's jti and exp that session; its errors |
| Pairs.CheckIff | internal/authn/authn.go:111-129 | Validating answers the token's own claims exactly when it is good, of this tenant, acknowledged and its account live; its errors; it changes nothing |
| Pairs.RenewIff | internal/authn/authn.go:131-160 | Renewing succeeds exactly when the token is good, of this tenant, its account live and its jti the session's; it answers a pair for the same account and client and puts the new jti and exp in the session, and nothing else changes; its errors |
| Pairs.RevokeIff | internal/authn/authn.go:162-168 | Revoking takes one client's session or, with no client named, every one of the account, and no other |
| Pairs.RenewalHandsOver | internal/authn/authn.go:131-160 | In any later state with the session where the renewal put it, the returned access token validates and the returned refresh token renews exactly while key, exp and account allow, and the presented one does not renew |
| Pairs.AcknowledgedPairAnswers | internal/authn/authn.go:85-160 | The same for a pair a password or code logon returned, once it is acknowledged in some later state |
| Pairs.IssuedPairAcknowledges | internal/authn/authn.go:85-109 | At any later time such a pair is acknowledged exactly while its key is published and neither token has expired |
| RequestOutcomes.AuthorizeIff | internal/oidc/storage.go:100-127 | A request begins with the tenant, client and scopes asked for, no login, no code and an expiry |
| RequestOutcomes.LoadIff | internal/oidc/storage.go:129-139 | An id reads the tenant's row in time; a mismatch before an expiry, and each error |
| RequestOutcomes.LoadByCodeIff | internal/oidc/storage.go:141-151 | A code reads exactly the row that has it, under its tenant and in time; the error otherwise |
| RequestOutcomes.CompleteIff | internal/oidc/storage.go:179-186 | Completing writes subject, time, methods and done into the tenant's row and keeps its other columns |
| RequestOutcomes.StoreCodeIff | internal/oidc/storage.go:153-159 | Storing a code writes its hash into the tenant's row and nothing else, unless another row has it |
| RequestOutcomes.DropIff | internal/oidc/storage.go:164-175 | Deleting takes the tenant's row; one already gone is a success |
| TokenOutcomes.ExchangeMints | internal/oidc/storage.go:188-234 | A code that reads becomes, from the request's columns: the access row with its client, subject, scopes and expiry, offline also the grant's row with its methods, login time, secret's hash and expiry, the one under the other; the reply holds the id, the secret or none, and the expiry; the request goes, and nothing else changes |
| TokenOutcomes.RefreshMints | internal/oidc/storage.go:204-247 | A refresh token that reads is replaced, with the tokens under it, by the two rows for the same client, subject, audience, methods and login time, under the narrowed scopes; the reply; and nothing else changes |
| TokenOutcomes.LoadGrantIff | internal/oidc/storage.go:236-247 | A refresh token reads exactly the row with its hash, under its tenant and in time; the error otherwise |
| TokenOutcomes.InspectIff | internal/oidc/storage.go:283-297 | A refresh token is told of to its own client and tenant, in time; to any other it is not found |
| TokenOutcomes.RevokeByIdIff | internal/oidc/storage.go:263-281 | The tenant's unexpired grant goes with the tokens under it, failing that its access token of that id, failing that nothing, and the answer is success each time |
| TokenOutcomes.IdTokenInfoIff | internal/oidc/storage.go:432-456 | An account's claims, in its own tenant: its subject, and its address and whether that is verified exactly when the scopes hold email; a deleted or disabled account is refused |
| TokenOutcomes.UserinfoIff | internal/oidc/storage.go:341-352 | A token's userinfo is the claims of its own subject under its own scopes, while it reads |
| Logouts.TerminateIsExact | internal/oidc/storage.go:251-257 | Terminating removes exactly the grants and tokens of its tenant, subject and client, and changes nothing else |
| Logouts.LoadCookieIff | internal/oidc/browser_session_repository.go:61-83 | A cookie reads exactly the session with its hash, under its tenant and in time, and tells its owner; the error otherwise |
| Logouts.LogoutIsExact | api/oidc/oidc_handlers.go:156-177 | Logging out takes the tenant's cookie, and if that was live exactly its account's grants and tokens at the client; a cookie that is nowhere, or another tenant's, changes nothing; the answer is success each time |
| Logouts.LogoutIsFinal | api/oidc/oidc_handlers.go:156-177 | In every later state of every run the cookie is signed in nowhere, and none of those grants and tokens resolves, by id or secret, under any tenant |
| Logouts.TerminationIsFinal | internal/oidc/storage.go:251-257 | ... and likewise for what a terminated session held |
| Sweeps.ExpirySweepIsExact | cmd/an/main.go:173-213 | Each sweep by expiry removes exactly the rows of its own table whose expiry has passed |
| Sweeps.StaleSweepIsExact | internal/authn/failed_attempt_repository.go:86-96 | The stale sweep removes exactly the attempt rows unmodified for longer than its age |
| Sweeps.TokenSweepIsExact | internal/oidc/token_repository.go:211-222 | The token sweep removes exactly the expired rows and what hangs under expired grants |
| Journeys.RegisteringLogsOn | internal/accounts/accounts.go:92-140 | Register, verify, log on: before verification nobody logs on, after it exactly the registered password does |
| Journeys.ResettingLogsOn | internal/accounts/accounts.go:162-210 | Forgot, wait within the expiry, reset, log on: exactly the new password does, whatever lock was running, and the token does not reset again |
| Journeys.SigningInTellsTheClaims | internal/oidc/storage.go:100-234 | Authorize, complete, store the code, exchange, userinfo: the claims are those of the account that logged in, under the scopes asked for at the start |
| Journeys.RefreshingKeepsTheClaims | internal/oidc/storage.go:204-247 | A refreshed token tells the same account's claims under the scopes it keeps, and the tokens it replaced tell nothing |
| Sessions.SessionHasItsAcknowledgement | internal/authn/authn.go:102-129 | A session row exists only if an acknowledgement for its tenant, email and client came after the last revocation covering it (or it was there from the start, never covered) |
| Sessions.ClientsAreIndependent | internal/authn/session_repository.go:66-117 | Whatever runs on behalf of other named clients, Validate and Renew answer this client's tokens as before |
| SessionExpiry.RunKeepsBacked | internal/authn/authn.go:102-108 | Along any run of unforged tokens, every session row is backed by an issued refresh token with its jti, its exp, and its tenant, subject and client |
| SessionExpiry.RenewNeverSeesTheSweepInAnyRun | internal/authn/session_repository.go:119-126 | Sweeping expired sessions changes neither the result of an atomic Renew nor, up to a sweep, what it leaves, although Rotate does not look at expiry |
| SessionExpiry.ValidateSeesTheSweep | internal/authn/authn.go:243-254 | Validate does see the sweep, exactly when the token verifies under its tenant and the session row it names is there but expired |
| SessionExpiry.UnacknowledgedPairRidesOnExpiredSession | internal/authn/authn.go:111-129 | A run reaches such a state from any in which an account may log on: acknowledge, outlive the session, log on again; the second pair, never acknowledged, validates until the sweep |
| Finality.CredentialChangeIsFinal | internal/accounts/accounts.go:177-277 | After a reset, password change or deletion commits with the OIDC revoker wired in, no refresh token, access token, cookie, authenticated request or code the account had is in any later state of any run (operations atomic) |
| Finality.EndedResolvesNowhere | internal/oidc/revoker.go:24-29 | ... so none of their ids or secrets resolves under any tenant |
| Finality.CredentialChangeIsExact | internal/oidc/revoker.go:24-29 | Such a change removes exactly the account's own rows: with the OIDC revoker its cookies, grants, tokens and authenticated requests in its tenant, cascade included, with the api-key revoker its sessions; every other row, and everything else but its account, reset and attempt rows, is as it was |
| Finality.CredentialChangeEndsSessions | internal/accounts/accounts.go:258-265 | After such a change with the api-key revoker, no token of the account is accepted by Validate or Renew until an acknowledgement for its client succeeds; failed ones and other clients' do not count |
| Finality.AcknowledgesIff | internal/authn/authn.go:85-109 | An acknowledgement succeeds exactly when both tokens verify for their use and name its tenant, one client and one subject |
| Finality.PairFromBeforeAnswersAgain | internal/authn/authn.go:85-109 | A pair from before the change is acknowledged after it, whatever ran in between, exactly while its key is published and both tokens are unexpired; it then answers exactly while the account is live |
| Finality.LoadedCreationSurvivesIffExchange | internal/oidc/storage.go:204-234 | Token creation that had only loaded its request when the change committed, and runs whole in any later state, succeeds exactly when it is a code exchange, and then for the account |
| Finality.LoadedAccessTokenSurvives | internal/oidc/storage.go:188-199 | The same for an exchange without a refresh token: it succeeds |
| Endings.InFlightLodgesIff | internal/oidc/storage.go:204-234 | Statement by statement: a token creation of the account that is in flight when its credentials change leaves a token row behind afterwards, in any interleaving, if and only if it then stood before its refresh insert and comes to it: a code exchange, or a renewal past its delete. A renewal before its delete, and an access token after its grant, leave none |
| Endings.LodgedGrantIsGood | internal/oidc/storage.go:204-234 | What such a call leaves is a live grant of the account: the row is its own and the new token resolves, however long after the change it goes in |
| Endings.EndingIsFinalIff | internal/oidc/token_repository.go:162-209 | Statement by statement, a grant ended by a revocation, a logout or a credential change has no row at once, and never one again under any interleaving, if and only if at that moment no renewal of it is between its delete and its insert |
| Endings.OverIsForGood | internal/oidc/token_repository.go:100-168 | A grant with no row and no renewal past its delete has neither in any later state, under any interleaving |
| Finality.CheckedLoginSurvives | api/oidc/oidc_handlers.go:124-141 | A login that passed its password check before a credential change, a deletion included, and inserts its session at any point after it, leaves a browser session of the account whose cookie resolves |
| Finality.SignInIsItsSteps | api/oidc/oidc_handlers.go:124-141 | The check and the insert, run together, are the atomic login |
| Finality.DeletionIsTerminal | internal/accounts/accounts.go:267-290 | Once a deletion commits: no later password logon, code logon, login, Validate, Renew, registration or other account operation for it succeeds, and its id has no userinfo under any tenant |
| Revocation.RevocationIsFinal | internal/oidc/storage.go:263-281 | After RevokeToken under a tenant, in every later state neither the id, nor its secret, nor any access token linked to it resolves there, also when the grant had expired and was left in place (RFC 7009, sections 2.1 and 2.2) |
| Revocation.RunKeepsSeparate | internal/oidc/token_repository.go:43-62 | No uuid ever names a row in both token tables, which is why RevokeToken may try one and then the other |
| Exchanges.RefreshTokensSpendOnce | internal/oidc/storage.go:204-247 | A refresh token is good for one response: afterwards neither it nor any access token that hung under it resolves, in any later state, under any tenant |
| Exchanges.AuthorizationCodesSpendOnce | internal/oidc/storage.go:141-175 | An authorization code is good for one response: once exchanged it never resolves again, under any tenant (operations atomic) |
| Exchanges.RefreshSwapsGrants | internal/oidc/storage.go:236-247 | A refresh succeeds exactly when its token reads, and swaps the old grant with its tokens for exactly the new pair; otherwise it changes nothing |
| Exchanges.ExchangeSwapsRequest | internal/oidc/storage.go:188-234 | An exchange succeeds exactly when its code reads, and swaps the request for exactly the tokens it was for; otherwise it changes nothing |
| Exchanges.RenewalKeepsTheLogin | internal/oidc/storage.go:475-498 | A renewed grant keeps client, subject, audience, amr and login time, and takes the narrowed scopes and a new expiry |
| Integrity.RunKeepsValid | internal/oidc/token_repository.go:43-62 | In every reachable state an access token with a parent has its refresh row, of the same tenant, client, subject, audience and scopes, expiring no earlier when access expiry is not above refresh expiry; and the database's unique constraints hold |
| Integrity.LongerAccessEscapesItsGrant | internal/oidc/storage.go:458-473 | Minting a pair keeps tokens within their grants exactly when access expiry is not above refresh expiry |
| Integrity.DeleteGrantsIsExact | internal/oidc/token_repository.go:173-185 | DeleteGrants removes exactly the token rows of its tenant, subject and client: the cascade reaches nothing else |
| Integrity.SweepIsExact | internal/oidc/token_repository.go:211-222 | The token sweep removes exactly the expired rows of both tables |
| Growth.RunGrows | internal/oidc/token_repository.go:43-123 | Over any run, every row in a table was there before or has an id and secret the run minted; accounts keep their ids and deletions are not undone |
| Accounts.CredentialChangeIsAllOrNothing | internal/accounts/accounts.go:177-277 | For any revokers and any failure point: a change that succeeds has its account update, every revocation, and for a reset the token spent and the lockout cleared; one that fails leaves the whole store as it was |
| Accounts.TransactionIsAllOrNothing | internal/utils/tx_manager.go:46-63 | A transaction either has every statement's effect, with every row of every table that is not the account's as it was, or leaves exactly the state it found; it fails exactly where the connection does |
| OneTime.CodesAreConserved | internal/authn/logon_code.go:49-124 | Along any run, successful code logons plus one if a code is stored never exceed the codes requested plus one if there was one at the start |
| OneTime.ResetsAreConserved | internal/accounts/accounts.go:162-210 | ... and likewise successful resets against Forgot calls |
| OneTime.OnlyTheLastCodeWorks | internal/authn/logon_code_repository.go:30-65 | A code logs on only if it is the last one requested, and not after its expiry |
| OneTime.OnlyTheLastResetTokenWorks | internal/accounts/password_reset_repository.go:30-65 | A reset succeeds only with the last token handed out, and not after its expiry |
| OneTime.OnlyTheLastVerificationTokenWorks | internal/accounts/accounts.go:127-160 | Verification succeeds only with the last token handed out by registration or resending |
| OneTime.VerifiesAtMostOnce | internal/accounts/account_repository.go:117-128 | An account is verified by token at most once along any run, and never once it is verified |
| Frames.StepFrame | cmd/an/main.go:173-213 | Which operations leave the session, attempt, code and reset tables exactly as they were |
| Keys.TokenOutlivesReloadsIff | internal/tokens/tokenizer.go:83-125 | Along any run of inserts and overlapping reloads, a token minted at any moment validates later exactly when it is unexpired and the read swapped in last was made when its key was already in the table; its key is always in the served set (key sets: RFC 7517, section 5) |
| Keys.RotationNeverOrphans | internal/tokens/tokenizer.go:83-125 | With one reload at a time, it validates exactly until its exp, whatever inserts happen between reads and swaps |
| Keys.RunKeepsConsistent | internal/tokens/tokenizer.go:83-125 | However reloads overlap, the ring holds the keys of an initial part of the table and no other, and signs with one of them |
| Keys.OverlapOrphans | internal/tokens/tokenizer.go:83-110 | From any table at rest a run of two reloads orphans a token: read, insert a key, read and swap, sign, swap the older read; the token validates before that last swap and not after |
| Tokens.FreshTokenValidates | internal/tokens/tokenizer.go:171-214 | A fresh token validates exactly when the ring publishes its signing key and its exp, truncated to seconds, is ahead |
| Tokens.UsesAreDisjoint | internal/tokens/tokenizer.go:192-214 | No token validates both as an access token and as a refresh token |
| Migrate.AppliedIsAlwaysAPrefix | internal/db/migrate.go:26-105 | After any sequence of runs each stopped at any statement, in doubt commits included, the applied versions are those of a prefix of the sorted files and each of those scripts has committed exactly once, in order |
| Migrate.UndisturbedRunCompletes | internal/db/migrate.go:64-104 | An undisturbed run completes exactly when every name has a fresh 32-bit version, wherever earlier runs stopped |
| Migrate.UndisturbedRunSaysWhy | internal/db/migrate.go:64-104 | Otherwise it ends with what is held against the first file it cannot apply: no version, a version an earlier file has, or one that does not fit 32 bits |
| VersionOrder.AtoiIff | internal/db/migrate.go:107-117 | A version is one or more digits with or without a sign that fit 64 bits |
| Migrate.CompletedRunIsFinal | internal/db/migrate.go:77-84 | Once a run has completed, later runs change nothing, stopped or not |
| Migrate.ApplyPending | internal/db/migrate.go:75-103 | A pending file leaves its script and its row together or neither, and both when it reports no failure |
| Migrate.GoodVersionsAreDistinct | internal/db/migrate.go:64-73 | No applied version belongs to two files |
| VersionOrder.RunsApplyInVersionOrderIff | internal/db/migrate.go:21-105 | After any runs over a directory, each stopped anywhere, the scripts applied went up in version if and only if every two of their prefixes agree: for plain digits, one width, or the smaller value below the head of the longer prefix, or leading zeros on the smaller; with signs, as the sign decides |
| VersionOrder.DirectoryAscendsIff | internal/db/migrate.go:53-105 | A directory always applies in version order, wherever its runs stop, if and only if the prefixes agree among its files before the first that no run can apply |
| VersionOrder.NamesAgreeIff | internal/db/migrate.go:107-117 | For any two names of different versions, byte order is version order exactly when the prefixes agree |
| VersionOrder.ShorterMeetsHead | internal/db/migrate.go:62 | A name with a shorter prefix of digits sorts first exactly when its value is below that of the longer prefix's head |
| VersionOrder.SortedNamesApplyInVersionOrder | internal/db/migrate.go:107-117 | With prefixes of one width, the name order is the version order |
| VersionOrder.UnequalWidthsMissort | internal/db/migrate.go:62 | A directory outside the condition: version 10 sorts and applies before version 9 |
| Migrate.ScriptsAreTheSqlFiles | internal/db/migrate.go:53-62 | What is sorted is every entry that ends in .sql, as often as it is there, and no other |
| Migrate.SortSorts | internal/db/migrate.go:62 | The sorted names are the same names, in byte order |
| Backends.Backend.RotateSession | internal/authn/session_repository.go:85-96 | Swaps only from the jti it is given, and touches no other row |
| Backends.Backend.IncrementAndLock | internal/authn/failed_attempt_repository.go:58-77 | One more failure counted at this instant; from the limit on it locks anew, below it the lock stays; no other row changes |
| Backends.Backend.DeleteGrants | internal/oidc/token_repository.go:173-185 | Removes the grants and tokens of a tenant, subject and client and, by cascade, what hangs under those grants; every other row stays |
| Backends.Backend.SweepTokens | internal/oidc/token_repository.go:211-222 | Removes expired access tokens, expired grants and what hangs under them; every other row stays |
| AccountServices.AccountService.RevokeSessions | internal/accounts/accounts.go:258-265 | Runs every revoker in the order wired and stops at the first failure; when none fails, every surface they stand for is empty of the account and nothing else has changed |
| AccountServices.AccountService.WithTransaction | internal/utils/tx_manager.go:46-63 | Runs the statements before the revokers, the revokers and those after; a success has all their effects and no other, any failure, at the commit too, leaves exactly the state it found |
| Keys.SigningKeyService.Create | internal/tokens/signing_key_repository.go:26-32 | Adds a key with a new kid and replaces none |
| Keys.SigningKeyService.Keys | internal/tokens/signing_key_repository.go:34-52 | Every row once, in creation order |
| Keys.SigningKeyService.Initialize | internal/tokens/tokens.go:60-73 | Generates a key only when there is none |
| Keys.SigningKeyService.Jwks | internal/tokens/tokens.go:83-104 | Every key of the table, or nothing when one does not parse |
| Keys.Tokenizer.ReloadKeys | internal/tokens/tokenizer.go:83-110 | Swaps in the keys read, or keeps the old ring whole on any failure |

## Left out

- HTTP handlers, routing, cookies, CSRF, templates, discovery and problem details: input, output and pages with no deep state.
- The zitadel `op` library, go-oidc and pgx: only the storage calls this repository implements are modelled, and the request passed to token creation is the `AuthRequest` or refresh token that was loaded; redirect, PKCE and client checks the library makes are not part of this model.
- RSA, PEM, JWT encoding, bcrypt, sha256 and constant-time comparison: a signature with a kid, a match relation and an injective hash.
- Social sign-in: its provider and subject pairs are unique across tenants, so it has no place in the tenant theorem, and the rest is thin. `CreateVerified` is only used there.
- Introspection: the read of `Oidc.UserinfoFromToken` with the token's own client and scopes beside it.
- The client registry, api keys, tenants, configuration, validators: short lookups or single checks that would only add easy members. The account's name column and `UpdateName` go with them.
- Storage.ReloadKeys: the same reload as `Keys.Tokenizer.ReloadKeys`, over the same table, so it is not repeated.
- Keys.RotationNeverOrphans: assumes one reload at a time, as the tokenizer has it, which is reloaded at start and by the janitor only. The OIDC storage also reloads when asked for a key before it has any (internal/oidc/storage.go:384-418), where requests may overlap; for that there is `Keys.TokenOutlivesReloadsIff`.
- Accounts.WithTransaction: a commit that reports an error has rolled back. One that landed all the same is modelled for migrations only; an account transaction would then have changed the store and reported a failure.
- Accounts.Register: the email and name validators are not part of this model, nor the name column.
- Oidc.CreateAuthRequest: the redirect, nonce, state and PKCE columns are not part of this model; nothing here reads them.
- Oidc.SetUserinfo: the name and profile claims are left out, with the name column they come from.
- Statement-level races in code exchange, logon codes, reset tokens and the clearing of an expired lock: those paths check and then act, so their theorems are about atomic operations.
- Lineage: a token creation that is given an authorization request together with a current refresh token is in `Oidc.SpendGrant` but not among the interleaved calls; the library presents a refresh token only on renewal.
- Driver errors outside transactions, and malformed uuids: a statement that the driver refuses is modelled only inside a transaction and in a migration run.
- BrowserSessionRepository.DeleteAll, silent sign-on from a live cookie, and the login handler's completing call: the first is never called, the others are compositions of operations that are modelled.
- The janitor's error handling: each sweep is a step of its own, so a failed sweep is one that is left out.
- Migrate.Migrator.Migrate: a script that would itself end its transaction is not modelled, nor is the advisory lock beyond one run at a time.
