# Verified model of the authentication service

A Dafny model of the parts of the service whose correctness spans several
functions, tables or requests: the OAuth2 grant protocol, the team tables and
the product gate they feed, signing-key rotation, the rate limiter, git
credentials, slug allocation and the PayPal `custom_id`.  `dafny verify
dfyconfig.toml` checks all of it.

## How it is laid out

| files | part of the service |
|---|---|
| `OAuth2Tables`, `RedirectUri` | the token tables and their statements; redirect matching and the product gate |
| `OAuth2Protocol` | all handlers cut at their SQL statements, any number in flight, interleaving freely |
| `OAuth2Ledger`, `OAuth2Chains` | what must hold of a chain of refresh tokens, on a small ledger; the protocol refines it |
| `OAuth2Grants`, `OAuth2Entitlement`, `OAuth2Safety` | who a token is for, how long it may live, and the resulting guarantees |
| `ScopeWords`, `OAuth2Secrets` | scope strings; whom a service client's tokens are for |
| `OAuth2Deletions`, `OAuth2Audit` | what deleting a user or a service client ends, and whom the audit log keeps from being deleted |
| `OAuth2Handlers` | the handlers run from start to finish, in place, each shown to be one run of the protocol |
| `TeamTables`, `TeamStore` | the team statements as functions on the tables, and in place |
| `TeamInvariants`, `AllRoleMigration` | what every team statement keeps, and how the data came to have it |
| `TeamEffects`, `TeamUndo`, `TeamOwners`, `TeamSupport`, `TeamClaims` | what team statements change, undo, protect and report |
| `TeamRuns` | concrete runs on which documented rules fail |
| `GatedAccess` | team statements and grant requests in one run |
| `ClannBackfill` | the backfill over all users |
| `SigningKeys`, `KeyOverlap` | signing-key rotation, one call at a time and with calls that overlap |
| `RateLimiter`, `GitCredentials`, `Slug`, `Decimal`, `PayPalCustomId` | the remaining components |

Tables are finite maps and sets.  Each SQL statement, and each transaction, is
one atomic step.  Every statement has a specification function on the value of
the tables; where the source updates in place, a class performs the statement
and is proved equal to that function.  Identifiers and random strings are
arguments, so a repeated one is a primary-key conflict rather than something
assumed away; only where a statement says so is an id taken to be fresh.

## What is taken for granted

- SHA-256, the PKCE transform, the URL parser, the password check, the PEM
  parser and lower-casing of names are parameters: nothing depends on their
  properties beyond their being functions, and that lower-casing leaves no
  ASCII capital.
- Sealing is symbolic: only the same key-encryption key and nonce open a PEM.
  A token verifies only under the key that signed it.
- One clock, in microseconds, serves the database and the process, and never
  goes back, except in the rate limiter's statements about skewed readings.
  Token claims are truncated to seconds.  The validator's leeway is a parameter.
- Row ids in `TeamOwners` and `GitCredentials` are never drawn twice.
- `users` rows carry no columns; being active, names and passwords do not
  matter to what is proved.

## Where code and documentation differ

The model follows the code.

- The comments on `admin_update_team` and migration 032 promise at most one
  Support team per organization, each with an organization.
  `TeamSupport` gives the exact conditions, `TeamRuns` runs that break each.
- `assign_member_product_role` documents that its target is an active member;
  any membership row satisfies the foreign key (`TeamClaims`, `TeamRuns`).
- The comment on `retire_signing_key` says retired keys stay in the JWKS; the
  handler drops them at once, and that is what `SigningKeys` models.
- The key endpoints check memory and write later: a retire and a promote of the
  same key that overlap can leave no usable primary key (`KeyOverlap`).
- The service's README documents a configurable refresh lifetime of 90 days;
  `REFRESH_TOKEN_TTL_DAYS` is a constant 30.
- `authorize_post` does not repeat the parameter checks of
  `validate_authorize_params`, so the protocol accepts any parameters there.
- Migration 021 calls the audit log append-only, and its reference to `users`
  has no ON DELETE action: `admin_delete_user` fails for whoever has ever
  completed a grant (`GatedAccess`, `TeamEffects`).
- The rate limiter's fallback for a clock younger than its window forgets
  instead of counting; `RateLimiter` says exactly when that shows.

## Model

| member | source | states |
|---|---|---|
| OAuth2Safety.AtMostOneHolder | src/db/oauth2.rs:258-347 | Under every interleaving of handler statements and row events, the unused code, the un-rotated refresh tokens and the requests in flight of one authorization code number at most one |
| OAuth2Safety.SingleChain | src/db/oauth2.rs:293-347 | Two refresh tokens of one code have different generations; an un-rotated one is the newest and every other is rotated; all carry the same client, user, scope and resource |
| OAuth2Safety.OneSignaturePerLink | src/handlers/oauth2.rs:707-801 | No position of a chain is ever signed for twice, counting failed and abandoned requests |
| OAuth2Safety.SignedInOrder | src/handlers/oauth2.rs:760-801 | In every reachable state, of two signatures of one chain the later one carries the later generation |
| OAuth2Safety.AtMostOneExchange | src/handlers/oauth2.rs:707-758 | One authorization code leads to at most one access token signed by exchange, over every run |
| OAuth2Safety.SignaturesKeepSubject | src/handlers/oauth2.rs:707-801 | Every access token of a chain is for the code's own client, user, scope and resource |
| OAuth2Safety.ExchangeProved | src/handlers/oauth2.rs:717-738 | An exchange signs only for a caller who named the code's client, showed a verifier whose hash is the stored challenge (section 4.6 of RFC 7636), and gave a redirect URI that the client's registered list admits and that registration would store |
| OAuth2Safety.ServiceScopesBounded | src/handlers/oauth2.rs:654-705 | In every reachable state a client-credentials token is for the service user of a client whose row the table has held and whose stored hash verified the secret shown; the words of its scope string are exactly the requested ones that client's list allows and, behind a gate, the gate's scope |
| OAuth2Secrets.ServiceRowsWereListed | src/db/oauth2.rs:54-72 | Along every run, requests and signatures of service clients work for rows the table held under that id |
| ScopeWords.WordsOfJoin | src/handlers/oauth2.rs:669-674 | Joining scope words and splitting the string again gives the words back |
| OAuth2Safety.RevokeEndsChainIff | src/db/oauth2.rs:338-347 | Revoking a known refresh token leaves its chain without a holder exactly when that token was the un-rotated one, or the chain had already ended |
| OAuth2Safety.EndedRun | src/db/oauth2.rs:316-347 | A chain without a holder stays without one over every continuation and is never signed for again |
| OAuth2Safety.RevocationIsFinal | src/handlers/oauth2.rs:816-835 | After the un-rotated token is revoked, no continuation signs another token of the chain, and every earlier one expires within 3600 s of the revocation |
| OAuth2Ledger.NextKeepsInv | src/db/oauth2.rs:258-347 | The chain invariant (one holder per grant, generations counted without gaps, distinct rows, signatures in order) is inductive over all ledger transitions |
| OAuth2Ledger.HoldersDescend | src/db/oauth2.rs:258-347 | A holder of a grant in a later ledger state stems from a holder in the earlier one, or the grant is new |
| OAuth2Ledger.DeadStaysDead | src/db/oauth2.rs:316-347 | A grant nobody can extend can never be extended again |
| OAuth2Ledger.LosingLiveKills | src/db/oauth2.rs:338-347 | Losing the un-rotated token of a grant leaves nobody who could extend it |
| OAuth2Chains.StepRefinesLedger | src/handlers/oauth2.rs:707-892 | Every protocol event, of any handler at any point, is one transition of the abstract ledger |
| OAuth2Chains.RunKeepsChain | src/handlers/oauth2.rs:707-892 | The chain invariant holds along every run from a state that has it |
| OAuth2Grants.RunKeepsGrants | src/handlers/oauth2.rs:707-892 | Along every run, each stored code and token, each request in flight and each signature agrees with the grant it descends from and with what the caller proved |
| OAuth2Grants.RunKeepsClients | src/handlers/oauth2.rs:298-363 | Along every run, each grant's redirect URI is admitted by the list its client registered, which is still stored, and service clients have no redirect URIs |
| OAuth2Grants.StoredUrisRegistrableIff | src/handlers/oauth2.rs:316-327 | In every reachable state every stored list holds only URIs that pass the registration check, exactly if the one URI that migration 019 seeds passes it |
| OAuth2Entitlement.EntitlementBound | src/handlers/oauth2.rs:774-781 | Every token for a gated resource was vouched for by the gate, and expires at most 3600 s (4200 s on the code path) after its user lost the product, plus the time its own handlers spent |
| OAuth2Entitlement.EntitlementBoundAtomic | src/handlers/oauth2.rs:682-692 | With requests that take no time, 4200 s after the loss of a product no token for it is unexpired |
| GatedAccess.TokensDieWithMembership | src/db/mod.rs:2906-2926 | Interleaving all team statements with all grant requests: 4200 s after a user last had an active membership in a team with the product, plus the time a token's own handlers spent, every token ever signed for them and that product has expired |
| GatedAccess.PromptTokensDieWithMembership | src/db/mod.rs:2906-2926 | With requests inside which the clock stands still, the same with exactly 4200 s |
| GatedAccess.PlayKeepsLinked | src/db/mod.rs:2906-2926 | Throughout such a run the gate's answers are exactly the active memberships of teams with the product, and both sides have the same users and the same audited users |
| GatedAccess.PlayIsARun | src/handlers/oauth2.rs:707-892 | The protocol half of a combined run is an ordinary protocol run, so every protocol guarantee applies to it |
| GatedAccess.PlayIsAReplay | src/db/mod.rs:1531-2926 | The team half of a combined run is an ordinary replay of team statements, so everything they keep holds in it |
| GatedAccess.WithoutIff | src/db/mod.rs:2906-2926 | After any run, a user without a product stays without it throughout a continuation exactly if no statement of it adds them to, or accepts for them, a team with the product, or enables it for a team they are active in |
| GatedAccess.DeletableIff | src/db/mod.rs:829-838 | After any run, deleting a user succeeds exactly if they own and lead no team and no audit row names them; an audit row names only users a token was signed for |
| GatedAccess.CompletedGrantForbidsDeletion | migrations/021_oauth2_audit_log.sql:6 | Once a grant has written its audit row for an existing user, the user is there in every continuation and every deletion of them fails |
| OAuth2Audit.RunKeepsAudit | src/db/oauth2.rs:527-549 | Along every run audit rows are never lost, name existing users only, and only users for whom a token was signed; so does every row still to be written |
| OAuth2Tables.AuthTables.InsertAuthCode | src/db/oauth2.rs:231-252 | Stores an unused code expiring 10 minutes on, or fails on a repeated code, a missing client or a missing user, changing nothing |
| OAuth2Tables.AuthTables.UseAuthCode | src/db/oauth2.rs:258-281 | Hands out the row of an unused, unexpired code and marks it used; the code is not exchangeable afterwards |
| OAuth2Tables.AuthTables.InsertRefreshToken | src/db/oauth2.rs:293-311 | Stores an un-rotated token with its expiry, or fails on a repeated hash, a missing client or a missing user, changing nothing |
| OAuth2Tables.AuthTables.Rotate | src/db/oauth2.rs:316-336 | Hands out the row of an un-rotated, unexpired token and marks it rotated; it is not rotatable afterwards |
| OAuth2Tables.AuthTables.Revoke | src/db/oauth2.rs:338-347 | Marks an un-rotated token rotated and leaves everything else alone; unknown or rotated hashes change nothing |
| OAuth2Tables.AuthTables.Audit | src/db/oauth2.rs:527-549 | Names an existing user in the log; for a user who is gone nothing is written and no error is returned |
| OAuth2Handlers.ExchangeCode | src/handlers/oauth2.rs:707-758 | The whole exchange in place: same tables and same outcome, error for error, as the specified sequence; the code is spent whatever the outcome, and a success leaves an audit row for its user |
| OAuth2Handlers.RefreshGrant | src/handlers/oauth2.rs:760-801 | The whole refresh in place: same tables and outcome as the specified sequence; the presented token is spent whatever the outcome, and a success leaves an audit row for its user |
| OAuth2Handlers.BuildCode | src/handlers/oauth2.rs:512-892 | Issuing a code in place: client lookup, redirect match, product gate, insert, with the error of the first that fails |
| OAuth2Handlers.IssueIsARun | src/handlers/oauth2.rs:512-892 | Uninterrupted issuing is the protocol run of its three statements: same tables, and a new grant exactly on success |
| OAuth2Handlers.ExchangeIsARun | src/handlers/oauth2.rs:707-758 | An uninterrupted exchange is the protocol run of its five statements: same tables, and a signature exactly when all checks passed |
| OAuth2Handlers.RefreshIsARun | src/handlers/oauth2.rs:760-801 | An uninterrupted refresh is the protocol run of its six statements: same tables, and a signature exactly when all checks passed |
| OAuth2Handlers.SecondExchangeRefused | src/handlers/oauth2.rs:707-758 | Whatever the first attempt came to, presenting the same code again is refused |
| OAuth2Handlers.RefreshMovesOn | src/handlers/oauth2.rs:760-801 | After a successful refresh the old token is refused and its successor works exactly for the next 30 days |
| RedirectUri.RedirectUriAllowed | src/handlers/oauth2.rs:75-93 | The loop answers yes exactly when some registered URI admits the request |
| RedirectUri.AllowedThroughStored | src/handlers/oauth2.rs:75-93 | Matching is transitive through the URI stored with the code: what the token endpoint accepts, the client's own list admits |
| RedirectUri.RegistrableIffSelfAdmitting | src/handlers/oauth2.rs:316-327 | Registration stores exactly the URIs that admit themselves |
| RedirectUri.AllowedIsRegistrable | src/handlers/oauth2.rs:316-327 | Nothing that registration would refuse is ever admitted, whatever the stored list |
| RedirectUri.LoopbackPortIgnored | src/handlers/oauth2.rs:75-93 | Section 7.3 of RFC 8252: loopback requests with the same path are admitted alike, whatever their ports |
| RedirectUri.ResourceToProductGate | src/handlers/oauth2.rs:241-277 | A resource is gated exactly when it parses and has one of three paths or a cunav host; the answer is one of five product and scope pairs |
| RedirectUri.GateScopeDeterminesProduct | src/handlers/oauth2.rs:241-277 | Two gated resources need the same product exactly when they stamp the same scope |
| TeamInvariants.ReplayKeepsInv | migrations/012_teams.sql:5-40 | Over every sequence of team statements: foreign keys, unique indexes, valid distinct slugs, one All role per team mirroring its active members, and product roles backed by an enabled product and a membership |
| TeamInvariants.AllRoleMirrorsMembership | src/db/mod.rs:1661-1677 | In every reachable state each team has exactly one All role, and its holders are exactly the team's active members |
| TeamInvariants.ProductRolesSupported | migrations/014_obair_product.sql:34-45 | In every reachable state a product role names a product enabled for its team and a membership row of that team |
| TeamInvariants.CreateTeamKeeps | src/db/mod.rs:1531-1585 | Creating a team keeps the whole invariant: its slug is new and valid, its All role is the only one and its owner holds it |
| TeamInvariants.ActivationKeeps | src/db/mod.rs:2083-2141 | Making a row active, new or old, and granting the All role restores the mirror whatever the row held before |
| TeamInvariants.DeleteTeamRows | src/db/mod.rs:2024-2033 | Deleting a team leaves exactly the other teams' rows, in every table |
| TeamInvariants.DisableDeletesDependents | src/db/mod.rs:2547-2563 | Disabling a product deletes exactly the product roles that depended on it |
| TeamInvariants.RemoveDeletesDependents | src/db/mod.rs:2153-2169 | Removing a member deletes exactly that one row, its role assignments and its product roles in that team |
| TeamUndo.InviteThenDecline | src/db/mod.rs:2144-2169 | Declining or removing a fresh invitation restores the tables as they were before it |
| TeamUndo.CreateTeamThenDelete | src/db/mod.rs:2024-2033 | Deleting a team right after creating it restores every table |
| TeamUndo.CreateRoleThenDelete | src/db/mod.rs:2359-2443 | Deleting a role right after creating it restores every table |
| TeamUndo.AssignThenUnassign | src/db/mod.rs:2448-2521 | A role that could be assigned is not the All role, and unassigning it restores every table |
| TeamUndo.EnableThenDisable | src/db/mod.rs:2526-2563 | Disabling a freshly enabled product restores every table |
| TeamOwners.OwnerStaysActiveMember | src/handlers/teams.rs:283-358 | However decisions of the member endpoints and all other statements interleave (admin owner change and admin removal aside), every owner has exactly one row, active and without a token, and nothing in flight will remove it |
| TeamOwners.DecisionsAreSafe | src/handlers/teams.rs:283-358 | No endpoint ever decides to remove or decline an owner's row |
| TeamOwners.DecisionStaysSafe | src/handlers/teams.rs:340-358 | A decision taken earlier is still safe after any other safe statement has run |
| TeamOwners.SafeStatementKeepsOwners | src/db/mod.rs:1531-2193 | Every statement except creating a team, an admin owner change, and a decline or removal aimed at an owner's row keeps each surviving team's owner and the owner's row |
| TeamOwners.AdminRemovalKeepsOwnersIff | src/handlers/admin.rs:515-523 | Admin removal leaves every owner an active member exactly when its target is not the owner |
| TeamOwners.AdminOwnerChangeKeepsOwnersIff | src/db/mod.rs:1871-1961 | An admin owner change keeps the rule exactly when the new owner already has an active row without a token |
| TeamOwners.InvitationUsedOnce | src/handlers/teams.rs:314-358 | Accepting activates the caller's own row only, grants nothing but the All role, and after whatever statements follow, none of which issues the token again, no accept or decline finds it |
| TeamOwners.DeclinedOnce | src/handlers/teams.rs:340-358 | Declining deletes the caller's own row only and spends the token just as finally |
| TeamSupport.AdminUpdateKeepsUniqueIff | src/db/mod.rs:1871-1961 | At most one Support team per organization survives an admin update exactly unless a flagged team is moved, flag unmentioned, to an organization that has one |
| TeamSupport.AdminUpdateKeepsPlacedIff | src/db/mod.rs:1909-1937 | Flagged teams keep an organization exactly unless a flagged team's organization is cleared with the flag unmentioned |
| TeamSupport.DeleteOrgAndFlags | src/db/mod.rs:1487-1496 | Deleting an organization never makes two flagged teams meet, and leaves a flagged team without one exactly when it had one |
| TeamSupport.SupportThroughoutIff | migrations/032_team_support_flag.sql:1-18 | Both rules hold throughout a run exactly if no statement of it that succeeds is one of those cases |
| TeamSupport.LookupsSucceedIff | src/db/mod.rs:1982-2021 | Support lookups by organization never fail exactly when no organization has two flagged teams |
| TeamRuns.SupportUniquenessCanBreak | src/db/mod.rs:1939-1956 | A run of eight statements from the empty schema ends with two Support teams in one organization |
| TeamRuns.SupportPlacementCanBreak | src/db/mod.rs:1487-1496 | Runs of five statements end with a Support team without an organization, by clearing it or by deleting it |
| TeamRuns.InvitedMemberGetsProductRole | src/db/mod.rs:2598-2637 | A run of six statements ends with a product role for a user whose only row is an open invitation |
| TeamClaims.GroupByTeam | src/db/mod.rs:2244-2250 | The fill loop records, per team, exactly the rows it was given |
| TeamClaims.UserActiveTeams | src/db/mod.rs:2199-2275 | Filling and draining the map gives each claim exactly the product roles stored for its team and user, for rows in any order |
| TeamClaims.ClaimsAreSupported | src/db/mod.rs:2199-2275 | A claim's product roles are for products it lists, and it always names the team's All role |
| TeamClaims.GateOpensIffClaimed | src/db/mod.rs:2906-2926 | The product gate opens exactly for the products some claim of the user lists |
| TeamClaims.AccessPairsAreTheGate | src/db/mod.rs:2906-2926 | The set of entitled pairs is exactly what the gate query answers yes to |
| TeamClaims.AssignmentKeepsHoldersActiveIff | src/db/mod.rs:2598-2637 | A product-role assignment succeeds whatever the row's status, and keeps "holders are active" exactly when its target is active |
| TeamEffects.HoldersActiveThroughoutIff | src/db/mod.rs:2598-2637 | From any consistent tables where it holds, "holders are active" holds throughout a run exactly if every assignment in it that succeeds has an active target |
| TeamStore.Store.CreateTeam | src/db/mod.rs:1531-1585 | Four inserts in one transaction, rolled back at the first violation; the slug is the search loop's |
| TeamStore.Store.UpdateTeam | src/db/mod.rs:1830-1862 | Slug check, then the row; absent parameters leave columns alone |
| TeamStore.Store.AdminUpdateTeam | src/db/mod.rs:1871-1961 | Unset the organization's Support team, write the row, roll both back together on failure |
| TeamStore.Store.DeleteTeam | src/db/mod.rs:2024-2033 | The cascade, table by table |
| TeamStore.Store.DeleteMemberRows | migrations/013_team_roles.sql:26-34 | Member rows take their role assignments and product roles with them |
| TeamStore.Store.DeleteRoleRows | migrations/013_team_roles.sql:26-34 | Role rows take their assignments with them |
| TeamStore.Store.DeleteAccessRows | migrations/014_obair_product.sql:34-45 | Product access rows take the dependent product roles with them |
| TeamStore.Store.InviteMember | src/db/mod.rs:2054-2080 | A pending row, a conflict on a repeated member or token, or a failure on a missing team, user or inviter |
| TeamStore.Store.AssignAllRole | src/db/mod.rs:1661-1677 | An active row gets every All role of its team, nothing else does |
| TeamStore.Store.AddMemberActive | src/db/mod.rs:2083-2106 | Upsert on team and user, then the All role, as one transaction |
| TeamStore.Store.AcceptInvitation | src/db/mod.rs:2127-2141 | The row becomes active, loses its token and gets the All role |
| TeamStore.Store.RemoveMember | src/db/mod.rs:2153-2169 | The row and its dependents go, or nothing is found |
| TeamStore.Store.RefreshInvite | src/db/mod.rs:2173-2193 | Only an invited row gets the new token |
| TeamStore.Store.CreateRole | src/db/mod.rs:2359-2383 | A role that is not an All role, or a conflict on its name |
| TeamStore.Store.UpdateRole | src/db/mod.rs:2387-2416 | A rename within the team, with its conflict |
| TeamStore.Store.DeleteRole | src/db/mod.rs:2420-2443 | The role and its assignments go unless it is the All role |
| TeamStore.Store.AssignRole | src/db/mod.rs:2448-2480 | The active member gets the role; the three refusals in their order |
| TeamStore.Store.UnassignRole | src/db/mod.rs:2485-2521 | The assignment goes unless it is the All role's |
| TeamStore.Store.EnableProduct | src/db/mod.rs:2526-2542 | Idempotent insert |
| TeamStore.Store.DisableProduct | src/db/mod.rs:2547-2563 | The access row and its dependents go |
| TeamStore.Store.AssignProductRole | src/db/mod.rs:2598-2637 | Upsert; a violated foreign key leaves the table alone, with the error the search of the server's text picks |
| TeamStore.Store.RevokeProductRole | src/db/mod.rs:2641-2659 | The one assignment goes |
| TeamStore.Store.EnsureOrganization | src/db/mod.rs:1417-1433 | The one organization with the slug, inserted if absent |
| ClannBackfill.Run | src/handlers/admin.rs:436-452 | The loop over all users: tables and counts are the specified fold, every user is counted once, and with no failure every user is covered |
| ClannBackfill.EnsureTeam | src/db/mod.rs:1628-1636 | One user: organization, membership test, team, with the first error that occurs |
| ClannBackfill.BackfillExtends | src/handlers/admin.rs:436-452 | Whatever fails, nothing is removed or changed, the three counts add up to the users, and exactly teams_created teams appear |
| ClannBackfill.BackfillCovers | src/handlers/admin.rs:436-452 | With no failure every user has an active membership in the clann organization |
| ClannBackfill.BackfillSlugsDistinct | src/db/mod.rs:1306-1327 | Afterwards the slugs of any two teams differ and are valid |
| ClannBackfill.SecondRunCreatesNothing | src/handlers/admin.rs:436-452 | After an error-free run, running again over the same users changes nothing and counts everyone as already covered |
| ClannBackfill.EnsureAddsIff | src/db/mod.rs:1589-1636 | In a call that succeeds, a team is created exactly for a user who was not covered |
| OAuth2Deletions.DeletedUserGetsNothing | src/handlers/oauth2.rs:740-801 | Once a user whom no audit row names is deleted, with no request of theirs past its user lookup, no continuation that does not create them anew signs for them, and throughout it there is no code, refresh token or service client of theirs |
| OAuth2Deletions.DeletedClientGetsNothing | src/db/oauth2.rs:131-185 | Once a service client is deleted with no request of it in flight, its secret yields no further token until it is provisioned again, and none of its codes or refresh tokens is left |
| TeamEffects.UpdateTeamTakesSlug | src/db/mod.rs:1813-1862 | A slug can be taken exactly if it is valid and no other team has it; afterwards that team alone has it; refusals change nothing and say which rule failed |
| TeamEffects.RefreshReplacesToken | src/db/mod.rs:2173-2193 | After a resend the new token finds the same row and the old one finds nothing |
| TeamEffects.AddActiveMakesMember | src/db/mod.rs:2083-2106 | A direct add succeeds exactly for an existing team and user, leaves them one active row, and changes nobody else's |
| TeamEffects.GateAfter | src/db/mod.rs:2906-2926 | Exactly how each of the 24 team statements changes the product gate: it is open afterwards for those who are then active in a team that then has the product, both read off the tables before the statement |
| TeamEffects.ShutGateOpensIff | src/db/mod.rs:2906-2926 | A gate that is shut for a user is opened by exactly three statements: a direct add to, or an invitation accepted in, a team with the product, or enabling it for a team they are active in |
| TeamEffects.ShutThroughoutIff | src/db/mod.rs:2906-2926 | A shut gate stays shut throughout a run exactly if none of its statements is one of those |
| TeamEffects.DeleteUserIff | src/db/mod.rs:829-838 | A user can be deleted exactly if they own and lead no team (migration 012) and no audit row names them (migration 021); then no membership and no product role mentions them, and a refusal changes nothing |
| AllRoleMigration.MigrationSeedsOnePerTeam | migrations/025_team_all_role.sql:10-32 | On any earlier data the migration gives every team exactly one All role, with names unique and assignments within their team |
| AllRoleMigration.MigrationMirrorsIff | migrations/025_team_all_role.sql:10-32 | From then on the All roles mirror active membership exactly if every holder of an adopted role was active |
| Slug.Slugify | src/db/mod.rs:1222-1238 | The one-pass loop computes the two-pass form of migration 029 (collapse runs to one hyphen, then trim) for every text |
| Slug.SlugifiedEmptyOrValid | src/db/mod.rs:1222-1256 | A derived slug is empty or passes the slug format check |
| Slug.SlugifiedFixesIff | migrations/029_team_slugs.sql:9-18 | Deriving leaves a text unchanged exactly when it is empty or a valid slug |
| Slug.SlugifiedIdempotent | src/db/mod.rs:1222-1238 | Deriving twice is deriving once |
| Slug.SlugifiedEmptyIff | migrations/029_team_slugs.sql:9-18 | A derived slug is empty exactly when the text has no ASCII letter or digit |
| Slug.CandidateInjective | src/db/mod.rs:1306-1327 | No two probes try the same candidate |
| Slug.CandidateValid | src/db/mod.rs:1306-1327 | Every probe of a valid base is a valid slug |
| Slug.UniqueTeamSlug | src/db/mod.rs:1306-1327 | The search ends after at most one probe more than there are taken slugs, with a free valid slug of least suffix, and its i32 counter cannot overflow within the stated bound |
| Decimal.ValueOfPrint | src/db/mod.rs:1306-1327 | Reading back a printed decimal gives the number |
| SigningKeys.MemoryAgreesWithTable | src/utils/key_store.rs:33-122 | Over every run of generate, promote, retire, sign and restart: the kids in memory are the un-retired rows, each once; exactly one row is primary, un-retired, and the primary in memory, and primary_key finds it |
| SigningKeys.RestartRebuilds | src/utils/key_store.rs:70-101 | A restart on any newest-first result set succeeds, writes nothing and rebuilds the same keys and the same primary |
| SigningKeys.FirstStartAgrees | src/utils/key_store.rs:103-122 | A first start succeeds exactly when its PEM parses, and leaves memory and table agreeing on that one key |
| SigningKeys.GenerateAgrees | src/handlers/admin.rs:707-723 | Generating keeps memory and table in agreement, also when the kid collides |
| SigningKeys.PromoteAgrees | src/handlers/admin.rs:729-751 | Promoting keeps the agreement and succeeds exactly for un-retired kids |
| SigningKeys.RetireAgrees | src/handlers/admin.rs:759-782 | Retiring keeps the agreement |
| SigningKeys.AcceptedIffNotRetired | src/utils/jwt.rs:334-370 | A token signed at any earlier point of a run is accepted now exactly when it has not expired and its key is not retired |
| SigningKeys.Decode | src/utils/jwt.rs:334-370 | The key loop accepts exactly when some key in memory is the signer and the token has not expired |
| SigningKeys.RetiringAfterTtlBreaksNothing | src/handlers/admin.rs:753-758 | Retiring a key that has not been primary for the longest token lifetime plus leeway changes no verdict on any token |
| KeyOverlap.SerialCall | src/handlers/admin.rs:729-782 | An uninterrupted promote or retire is its look at memory followed by its write |
| KeyOverlap.LatePromoteIff | src/handlers/admin.rs:742-745 | The write of a promote, at any later moment, keeps memory and table in agreement exactly if its key is un-retired then |
| KeyOverlap.LateRetireIff | src/handlers/admin.rs:775-778 | The write of a retire, at any later moment, keeps the agreement exactly if its key is not the primary then |
| KeyOverlap.OverlapAgreesIff | src/handlers/admin.rs:729-782 | With any number of generate, promote and retire calls between look and write, and restarts: memory and table agree throughout a run exactly if every write meets its condition |
| KeyOverlap.GuardLostIff | src/handlers/admin.rs:729-782 | Between look and write, that condition is lost exactly to the write of the opposed call (promote against retire) on the same key |
| KeyOverlap.ExclusiveCallsAgree | src/handlers/admin.rs:729-782 | If no call is let in while an opposed one on the same key is in flight, memory and table agree throughout every run |
| KeyOverlap.RetireInsidePromote | src/handlers/admin.rs:729-782 | A retire inside a promote leaves a retired primary row and a primary kid with no key in memory |
| KeyOverlap.PromoteInsideRetire | src/handlers/admin.rs:729-782 | A promote inside a retire leaves no primary row and a primary kid with no key in memory |
| KeyOverlap.InOrderIsWhole | src/handlers/admin.rs:742-778 | With table and memory written apart, but memory in the order of the table, what is left when all is written is what whole writes leave, over every run |
| KeyOverlap.CrossedPromotesAgreeIff | src/handlers/admin.rs:742-745 | Two promotes whose memory writes cross leave memory and table agreeing only if they promote the same key |
| SigningKeys.TrimIdempotent | src/utils/rs256.rs:46-58 | Storing the trimmed PEM loses nothing: trimming again changes nothing |
| SigningKeys.KeyService.DemoteAll | src/db/oauth2.rs:457-463 | No row is primary afterwards and nothing else changes |
| SigningKeys.KeyService.StoreSigningKey | src/db/oauth2.rs:431-454 | Demote if asked, then insert, with the demotion standing even if the insert fails |
| SigningKeys.KeyService.GenerateKey | src/handlers/admin.rs:708-723 | Table first, then memory |
| SigningKeys.KeyService.PromoteKid | src/handlers/admin.rs:730-751 | Memory check, demote, promote, then the primary in memory |
| SigningKeys.KeyService.RetireKid | src/handlers/admin.rs:760-782 | Refuses the primary; table first, then memory |
| SigningKeys.KeyService.Start | src/utils/key_store.rs:70-122 | The startup loop computes the specified store, or fails with the kind of the first row that does not open or does not parse, leaving memory alone |
| RateLimiter.Limiter.Check | src/utils/rate_limit.rs:39-58 | The pop loop and the push are the specified call |
| RateLimiter.FollowsTheRule | src/utils/rate_limit.rs:39-58 | With a clock that never goes back, a call is accepted exactly when fewer than max earlier accepted calls of that IP lie in the closed window ending now |
| RateLimiter.FollowsTheRuleIff | src/utils/rate_limit.rs:39-41 | All runs from a given clock reading follow the rule exactly when max is zero or the clock has run one window less an instant |
| RateLimiter.FallbackForgets | src/utils/rate_limit.rs:41 | Earlier than that, a full burst is forgotten at the next instant: the call is accepted although the rule refuses it |
| RateLimiter.SkewedBound | src/utils/rate_limit.rs:39-58 | Calls serialised per IP with readings out of order by at most d: any closed interval of length window minus d holds at most max accepted timestamps, over every run |
| RateLimiter.SkewedBoundIsTight | src/utils/rate_limit.rs:39-58 | The exact interval length over all runs with skew at most d: window minus d for two slots or more, a whole window for one slot whatever the skew, any length for none; every longer one is exceeded by some run |
| RateLimiter.SingleSlotBound | src/utils/rate_limit.rs:39-58 | With one slot, at most one accepted call of an IP lies in any closed interval of a whole window, however skewed the readings |
| RateLimiter.DequesSorted | src/utils/rate_limit.rs:48-56 | With a clock that never goes back, at whatever reading it starts, every deque is sorted and holds no future reading |
| RateLimiter.DequesBounded | src/utils/rate_limit.rs:52-56 | No deque ever grows past the limit, even with the clock jumping |
| RateLimiter.OthersDoNotMatter | src/utils/rate_limit.rs:43-45 | Other IPs' calls never change an IP's deque or answers |
| GitCredentials.JwtOutlivesPatBriefly | src/handlers/pat.rs:137-180 | Over every interleaving, a JWT was resolved before its token's expiry and not after its revocation or deletion, and expires within 900 s of either plus the request's own delay |
| GitCredentials.JwtCarriesItsPat | src/handlers/pat.rs:137-242 | A JWT carries its token's user, scopes and repository; from a repo-scoped token it expires within 21600 + 900 s of minting plus the delay |
| GitCredentials.AtomicBounds | src/handlers/pat.rs:30-40 | With exchanges that take no time the bounds are exactly 900 s and 21600 + 900 s |
| GitCredentials.EndedNeverResolves | src/db/pat.rs:106-124 | A revoked, deleted or expired token is never resolved again |
| GitCredentials.RunKeepsWorld | src/db/pat.rs:23-160 | The invariant behind these holds along every run |
| GitCredentials.PatTable.Insert | src/db/pat.rs:25-52 | Stores the row, or a conflict on a repeated hash, or a missing user |
| GitCredentials.PatTable.Revoke | src/db/pat.rs:73-86 | Only the owner's unrevoked row is revoked, and it is inactive from that moment |
| GitCredentials.PatTable.MintEphemeral | src/handlers/pat.rs:198-242 | The minted token is active now, carries its repository, and is inactive 21600 s later |
| GitCredentials.PatTable.Resolve | src/db/pat.rs:106-124 | Resolves exactly the unrevoked, unexpired row with the hash |
| PayPalCustomId.CheckoutRoundTrip | src/payments/paypal.rs:53-66 | Whatever checkout prints, the webhook reads back, for every UUID, both plans and every i16 seat count |
| PayPalCustomId.ParsePrintIff | src/payments/paypal.rs:206-222 | The format carries any product and plan back exactly when neither contains a colon |
| PayPalCustomId.UuidRoundTrip | src/payments/paypal.rs:66 | Parsing a printed UUID gives it back, and the text has no colon |
| PayPalCustomId.IntRoundTrip | src/payments/paypal.rs:222 | Parsing a printed i16, negative ones and both ends of the range included, gives it back |
| PayPalCustomId.SplitFour | src/payments/paypal.rs:207 | Splitting four joined parts on colons gives the parts back, the last one with any colons of its own |
| Prelude.ClaimSeconds | src/utils/jwt.rs:302-308 | A truncated expiry claim never lies after the intended instant and less than a second before it |

## Left out

- HTTP routing and middleware, HTML pages, cookies and sessions, e-mail, GeoIP, CORS, secrets and environment loading: input and output.
- The consent and login steps before `authorize_post` reaches the client lookup, and client metadata fetched from a URL: a registration's list of URIs is an argument.
- OAuth2Safety.SignaturesKeepSubject: scopes on the code path are carried, not bounded by the client's list, because the code does not filter them.
- TeamClaims.UserActiveTeams: reads memberships and product roles from one state; the two queries of the source may straddle another statement. The order by name and the JSON shape are dropped.
- TeamStore.Store.AddMemberActive: relies on the unique index on team and user, which the server enforces, and takes `added_by` to be the added user, as its one caller passes it.
- SigningKeys.MemoryAgreesWithTable: one process, one admin call at a time; `KeyOverlap` says exactly when the agreement survives overlapping calls.
- KeyOverlap.OverlapAgreesIff: the write of a call, table and then memory, is one step, which `InOrderIsWhole` and `CrossedPromotesAgreeIff` justify and limit; the two UPDATEs of a promote, which share no transaction, are one step throughout.
- SigningKeys.KeyService.Start: a failed first start may leave the table's demotion in place, as in the source; it does not stop the model as it would the process.
- Single-key mode and the env-variable choice between an imported and a generated first key: the first PEM is an argument.
- OAuth2Deletions.DeletedUserGetsNothing: requests already past their user lookup may still sign, as in the source.
- RateLimiter.FollowsTheRule: readings before one window of uptime are covered only by `FollowsTheRuleIff` and `FallbackForgets`; no bound is claimed for them.
- Creating and renaming organizations by administrators: they change only names and slugs of organizations; the search for a free organization slug is the team one with another fallback word.
- The slug column's back-fill on rows older than migration 029, in particular its de-duplication, which can itself collide.
- Product-role vocabulary checks in the two handlers, which differ in whether `togra` is restricted.
- Stripe and PayPal network calls and webhook row updates other than reading `custom_id`; the URN form of a UUID cannot occur in front of a colon.
- White space other than ASCII blanks in scope strings and emptiness checks, and the check that a git token has a name.
- Overflow of dates for absurdly long requested token lifetimes, column length limits, connection failures, and of the audit log everything but the users it names.
- Pagination, search, profiles, SSH keys, plans and subscriptions: single-row statements with easy properties.
- GitCredentials.RunKeepsWorld: any user may be deleted, where the team tables and the audit log refuse some; the bounds hold for all the same.
