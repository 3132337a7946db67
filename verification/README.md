# Verified model of the FAPI zero-trust ledger

A Dafny 4.11 model of the three connected cores of the system, with proofs about every run of them:

1. **The multi-tenant WORM ledger** – PostgreSQL tables with row-level security, the hash-chain trigger, and the
   gateway's database client on a connection pool (`Database`, `LedgerInvariants`, `HashChain`, `NonInterference`,
   `TamperEvidence`, `BalanceBounds`, `ChainVerifier`, the runs of `OverlapRuns`, and the imperative `Postgres` and
   `DbClient`).
2. **The DPoP/PKCE token protocol** – client, IdP, gateway, clock and expiring stores, first as handlers that change
   state (`TtlStore`, `JwksCache`, `Idp`, `Gateway`, `Handlers`), then as interleaved steps (`ReplayCache`, `ReplayRace`,
   `CodeStore`, `Protocol`, `Agreement`, `Completeness`, `Refinement`), and joined to the ledger in `System`.
3. **Codecs** – DER to JOSE, coordinate padding and JWK thumbprints, and the metrics printer and parser (`Bytes`,
   `Base64Url`, `DerToJose`, `Jwk`, `KeyBinding`, `DpopProof`, `Metrics`, `MetricsParser`).

`dafny verify dfyconfig.toml` checks the whole project.

## How things are modelled

- **Hashes, HMAC, casts and JSON text** are function-valued fields of a datatype (`Jwk.Hash`, `Database.Server`).
  Nothing is assumed of them: where the system relies on collision resistance the theorem says "equal, or here is a
  collision".
- **Signatures** are symbolic. A proof carries the public key that signed it; a token verifies if the IdP has issued
  that very text and the key set gave the IdP's key.
- **Time** is an integer of nanoseconds, one clock for all hosts, and never runs backwards. Timestamps that the database
  prints, UUIDs, codes and token texts are inputs of the steps; codes and token texts are fresh by the rule of the step.
- **The database** keeps every row ever written, in the order of writing, with the transaction that wrote it; a
  transaction sees committed rows and its own. A step is one statement of one request, so that all interleavings of
  requests, connections, resets, losses and rollbacks are runs. `Postgres.Cluster` is the same database as an object whose
  fields the client's statements change; it is always in the state that its log of steps leads to, so every theorem about
  runs holds of it.
- **The protocol** takes its checks as a parameter (`Protocol.Checks`), so that the invariants rest on the order of the
  checks alone; `Agreement.RealChecks` puts in those of the code. `Refinement` shows that a call that is not interrupted
  does what the handler's method does.

## Where the code and what is said of it differ

- `README.md:56` promises a chain per tenant, and there is one; but the verify-chain route reads the rows of all tenants
  together and so reports a broken chain as soon as two tenants have rows (`ChainVerifier.MixedTableFails`).
- The verify-chain route never recomputes a hash, so its verdict does not depend on the other fields
  (`ChainVerifier.VerdictIgnoresPayload`). Recomputed hashes do detect every change (`TamperEvidence.TipDeterminesLedger`).
- The comment at `docker/postgres/init.sql:103` lists the row's id among the hashed fields; the code does not hash it. The
  model follows the code (`NonInterference.SealedTwins`), and non-interference needs exactly this.
- The trigger's lookup of the last row takes no lock. A tenant's chain holds if every row of its final ledger was written
  when all earlier ones had been committed, and, unless block hashes repeat or hit the zero hash, only then
  (`HashChain.LinkedIffInTurn`). So an overlap of two audit transactions that both commit breaks the chain
  (`OverlapRuns.OverlapBreaksChain`), and the same overlap does no harm if the first is rolled back
  (`OverlapRuns.OverlapUndone`). The other chain theorems carry this condition; other tenants may overlap freely.
- The comment at `idp/store/memory.go:43` says that a code is good for one use. Load and Delete are two steps: a second call
  is answered if and only if it loads before any call has deleted the code (`CodeStore.AnsweredAgainIff`), and then one code
  earns two tokens (`Completeness.OneCodeEarnsTwo`).
- `docs/security/protocol.pv:45` asks that served requests map injectively to started authorizations. Two served requests go
  back to one authorization if and only if they bear one token, or tokens that overlapping redemptions earned
  (`Agreement.SameGrantIffSameToken`); one token serves two requests in `Completeness.OneGrantServesTwo`.
- A jti is not spent once and for all. LoadOrStore and the Store over an expired entry are two steps, and so are the sweeper's
  look and delete. A call passes the replay check if and only if every lease on its jti that still runs has been overlapped
  in one of these ways (`ReplayCache.PassesIffOverlapped`). The first call ever made for a jti is never overlapped, so until
  its lease ends it alone passes, and a proof it was made for passes again only at exactly 60 s after its iat, if it first
  passed at exactly 60 s before, but for delays between the two checks (`ReplayRace.SecondAcceptanceBound`). Once an expired
  entry is there, two requests with one proof can both pass in the middle of its window, by overlapping loads
  (`ReplayRace.OverlappingLoadsBothPass`) or by a sweeper's delete (`ReplayRace.SweeperErasesLease`).
- The thumbprints of IdP and gateway differ for keys written with a line break inside a coordinate, which both decoders skip
  and only the IdP's printer escapes (`Jwk.DecodableTextsAgreeIff`).
- An authorization code is saved before the redirect URI is parsed and, in the headless flow, before the client's secret is
  checked; it is then withheld but stays redeemable for five minutes (`Idp.Provider.AuthorizeHandler`).

## Model

| member | source | states |
|---|---|---|
| `NonInterference.NonInterference` | docker/postgres/init.sql:27-56 | After any interleaving of requests of any tenants, taking out the other tenants' requests (the pool's own opens, closes and resets stay) leaves a valid run with the same ledger of this tenant (all fields and hashes but id), the same transactions and balance, and the same replies. |
| `NonInterference.OnlyATakenIdInterferes` | docker/postgres/init.sql:15-21 | The hypothesis of the theorem is exact: primary keys are checked across tenants, so of a transfer's insert that goes through in the purged run the same insert fails in the run itself if and only if a committed row of another tenant has the drawn id. While an open transaction holds the id the insert waits. |
| `NonInterference.SealedTwins` | docker/postgres/init.sql:100-113 | Two audit rows that differ only in their ids get the same hashes: the id enters no hash. |
| `LedgerInvariants.IdleConnectionsHaveNoTenant` | gateway/internal/audit/db.go:79-100 | In every run, with resets landing on any connection, an idle connection has no tenant. |
| `LedgerInvariants.WithoutTenantNothing` | docker/postgres/init.sql:30-31 | Without a tenant reads see no row and sums are zero, and every insert is refused. |
| `LedgerInvariants.AuditBijection` | gateway/internal/audit/db.go:104-135 | Within each tenant, after any run, committed transactions and committed CREATE_TRANSACTION rows correspond one to one by tx_id. |
| `HashChain.TriggerSeesTip` | docker/postgres/init.sql:90-101 | What the trigger reads as last hash is the tip of the tenant's committed ledger, although it asks for the newest row of the whole table. |
| `HashChain.LinkedIffInTurn` | docker/postgres/init.sql:89-101 | Over every run: if each row of a tenant's ledger was written when all earlier ones had been committed, the ledger is linked; and if no block hash repeats or is the zero hash, only then. |
| `HashChain.SerialIsInTurn` | docker/postgres/init.sql:90-93 | Where a tenant's audit transactions do not overlap, its rows come in turn. |
| `HashChain.LedgerIsChained` | docker/postgres/init.sql:89-113 | In every run in which the tenant's rows came in turn, its ledger is in id order, starts at the zero hash, links and recomputes. |
| `OverlapRuns.OverlapBreaksChain` | docker/postgres/init.sql:90-93 | A run, for any tenant, in which two audit transactions overlap and both commit: both rows name the zero hash, and the ledger is linked if and only if the first row hashes to the zero hash. |
| `OverlapRuns.OverlapUndone` | docker/postgres/init.sql:90-93 | The same overlap with the first transaction rolled back leaves a linked ledger. |
| `HashChain.LedgerGrows` | docker/postgres/init.sql:63-73 | Every earlier ledger stands unchanged and in order inside every later one, overlaps included. |
| `HashChain.LedgerGrowsAtEnd` | docker/postgres/init.sql:63-73 | If the tenant's rows came in turn the ledger has grown at its end only. |
| `TamperEvidence.ConcatIsInjective` | docker/postgres/init.sql:104-110 | With no bar in the five fields before the details, the joined texts of two rows are equal if and only if every hashed field is; the details may hold bars. |
| `TamperEvidence.FieldsAreReadBack` | docker/postgres/init.sql:104-110 | Cut at its bars the hashed text gives back timestamp, actor, tenant, action and resource in this order, and then details and previous hash. |
| `TamperEvidence.BarMovesTheBoundary` | docker/postgres/init.sql:107-108 | With a bar in action or resource injectivity fails: different rows with one text. |
| `TamperEvidence.TipDeterminesLedger` | docker/postgres/init.sql:100-113 | Two sound ledgers with the same last block hash agree in all hashed fields of all rows, or exhibit an HMAC collision or a row hashing to the zero hash. |
| `TamperEvidence.TipCommitsToHistory` | docker/postgres/init.sql:89-113 | The tip of a ledger whose rows came in turn, left by any run, holds every sound ledger shown later to the same rows, or there is a collision or a row hashing to the zero hash; times and UUIDs are printed without bars, and HMACs with 64 characters. |
| `ChainVerifier.VerifyChain` | dashboard/src/app/api/verify-chain/route.ts:15-50 | The loop's verdict is that every row's check holds; one report per row repeats it and says whether and how it fails. |
| `ChainVerifier.VerdictMeansLinked` | dashboard/src/app/api/verify-chain/route.ts:23-35 | A linked ledger always passes; of hashes without padding nothing else does. |
| `ChainVerifier.LedgerPasses` | dashboard/src/app/api/verify-chain/route.ts:18-50 | The ledger of a tenant whose rows came in turn passes the loop, after any run. |
| `ChainVerifier.VerdictIgnoresPayload` | dashboard/src/app/api/verify-chain/route.ts:31 | Whatever is written over fields other than the two hashes, the verdict is the same. |
| `ChainVerifier.MixedTableFails` | dashboard/src/app/api/verify-chain/route.ts:10-13 | On a table whose per-tenant chains are all in order the route passes if and only if all rows are of one tenant. |
| `ChainVerifier.RouteOnWholeTable` | dashboard/src/app/api/verify-chain/route.ts:10-13 | The same for the committed table of every run in which each tenant's rows came in turn and the block hashes are unpadded and not the zero hash. |
| `OverlapRuns.TwoTenantsFail` | dashboard/src/app/api/verify-chain/route.ts:10-13 | A run, for any two tenants, that leaves each a ledger that passes and a common table that does not, unless its first row hashes to the zero hash. |
| `BalanceBounds.BalanceIsConserved` | gateway/internal/audit/db.go:173 | After any run a balance is the sum of the committed transfers of the tenant, each counted once at its stored cents. |
| `BalanceBounds.CommitMovesBalance` | gateway/internal/audit/db.go:132-135 | A commit moves the balance of its own tenant by its amount in cents, and no other. |
| `BalanceBounds.QuietStep` | gateway/internal/audit/db.go:84-90 | No step but a commit changes what any tenant finds committed. |
| `BalanceBounds.BalanceIsClose` | docker/postgres/init.sql:18 | After n transfers a balance is within n half cents of the exact sum requested, and not negative if the amounts are positive. |
| `BalanceBounds.ZeroCents` | docker/postgres/init.sql:18 | A positive amount is stored as zero if and only if it is below half a cent. |
| `BalanceBounds.CentsFit` | docker/postgres/init.sql:18 | Which amounts fit DECIMAL(15,2), and that they are stored to the nearest cent. |
| `BalanceBounds.ReadsAnswer` | gateway/internal/audit/db.go:170-174 | A balance request reads the committed balance of its tenant, a log request its committed ledger. |
| `Postgres.HashChainTrigger` | docker/postgres/init.sql:76-117 | The trigger with its local variables computes the row's prev_hash and block_hash, or raises when the secret is missing. |
| `Postgres.Cluster.InsertTransaction` | gateway/internal/audit/db.go:107-111 | The insert takes the step of the model, and returns the id exactly when a row was added. |
| `Postgres.Cluster.InsertAudit` | gateway/internal/audit/db.go:126-130 | The audit insert, with its trigger, takes the step of the model. |
| `Postgres.Cluster.CommitTx` | gateway/internal/audit/db.go:133-135 | A commit, delivered or not, acknowledged or not, takes the step of the model and says what the caller learns. |
| `DbClient.Client.CreateTransaction` | gateway/internal/audit/db.go:77-142 | The call is answered if and only if no statement is lost, the commit is acknowledged, the name stands for a tenant, the secret is set, the amount fits and no committed row has the drawn id. Then the balance of its tenant has grown by the amount in cents and no other has, and transaction and audit row with amount, description, id and actor are there; an error, if the commit's answer was not lost, means that no tenant finds anything changed; the connection is idle again. |
| `DbClient.Client.GetBalance` | gateway/internal/audit/db.go:145-196 | The call is answered if and only if no statement is lost, the commit is acknowledged, the name stands for a tenant and the secret is set; the result is the tenant's committed balance before the call, and its GET_BALANCE row names the actor. Errors leave nothing. |
| `DbClient.Client.GetAuditLogs` | gateway/internal/audit/db.go:199-254 | The call is answered if and only if no statement is lost, the commit is acknowledged and the name is empty or stands for a tenant; for a tenant the result is its committed ledger before the call, row by row and column by column, in the order of the ids. |
| `DbClient.Client.CleanUp` | gateway/internal/audit/db.go:85-90 | The deferred function resets another connection, if it gets through, and rolls back what was not committed. |
| `Handlers.ApiHandlers.CreateTransferHandler` | gateway/internal/api/handlers.go:60-102 | Without claims, body or a positive amount nothing reaches the database. Otherwise it answers 201 exactly when the call of the client succeeds, with the amount and description of the body; they are booked for the claims' tenant and nobody else and stand on its ledger under the claims' subject; one count of 201 or 500, and the two latencies of a success. |
| `Handlers.ApiHandlers.GetBalanceHandler` | gateway/internal/api/handlers.go:27-57 | It answers 200 exactly when the call of the client succeeds, with the balance of the claims' tenant; one count, and the two latencies of a success. |
| `Handlers.ApiHandlers.GetAuditLogsHandler` | gateway/internal/api/handlers.go:105-133 | The same for the ledger of the claims' tenant. |
| `Agreement.ServedRequestsAgree` | gateway/internal/middleware/auth.go:43-185 | Every request served in any run bears a token issued less than 60 s before its check to the client whose secret and code verifier were presented for a code at most five minutes old, by POST and with a proof for the token endpoint's URI up to case and query and that minute, with that client's tenant and role; its own proof is for its method, its path, its minute and the token, is not expired, has a jti and is signed by the key bound to the token (or here is a SHA-256 collision); a network identity is the client's and is there if enforced; the policy let it through; and what it asks of the database is what its path and body say, in the name of the claims. |
| `Agreement.TokensHaveOwnGrants` | idp/handler/token.go:57-61 | Different tokens are earned by different calls and go back to different authorizations, unless the two calls overlapped: both had loaded the code before any call deleted it. |
| `Agreement.SameGrantIffSameToken` | docs/security/protocol.pv:45 | Two served requests go back to one authorization if and only if they bear one token, or tokens whose redemptions overlapped in this way. |
| `Agreement.StoresOkRun` | idp/store/memory.go:44-78 | In every run of the protocol the three stores hold what the logs of their steps say, the logs are of steps the code can take, and each call's load, Store or Delete is the one it says. |
| `Agreement.ProofsAreSingleUse` | gateway/internal/middleware/auth.go:83-86 | Of two requests with one jti that pass the replay check, the second loads at least 120 s after the first read its clock, and the first read it no later than 60 s before the iat plus the second's delay; or the first was overlapped by another request's load and Store or a sweeper's look and delete, which never happens to the first call for a jti. |
| `KeyBinding.EqualThumbprintsOneKey` | gateway/internal/middleware/auth.go:114-124 | A thumbprint computed by the IdP and one computed by the gateway are equal only for one key, or here is a SHA-256 collision. |
| `Completeness.HonestClientEarnsToken` | idp/handler/token.go:23-161 | From any state a registered client that keeps to the protocol is issued a token with its tenant and role, bound to its key. |
| `Completeness.HonestClientIsServed` | gateway/internal/middleware/auth.go:43-185 | For 59 s a request with a proof of its own is served with it, if network identity, policy and handler allow it; the request claims its own jti and no other. |
| `Completeness.OwnPathIsGood` | gateway/internal/middleware/auth.go:68-80 | A proof generated for any scheme and host and the request's own path passes, for every path. |
| `Completeness.TwoServedOneGrant` | docs/security/protocol.pv:45 | From the start, a client earns one token and is served twice with it: two served requests go back to one authorization. |
| `Completeness.OneGrantServesTwo` | docs/security/protocol.pv:45 | Such a run with two balance requests, for every hash without empty digests. |
| `Completeness.OverlappingRedemptions` | idp/store/memory.go:44-51 | From any state, two well-made token requests with one fresh code that both load it before either deletes it earn two tokens. |
| `Completeness.OneCodeEarnsTwo` | idp/store/memory.go:44-51 | Such a run from the start. |
| `Refinement.AuthorizeHandlerIsItsStep` | idp/handler/authorize.go:14-97 | The handler's store is that of its step; the code is handed out if and only if the request was in order, the redirect URI parses and a headless client has shown its secret, but saved as soon as the request was in order. |
| `Refinement.TokenHandlerIsItsSteps` | idp/handler/token.go:23-161 | The handler in one go, its readings of the clock in order, and its steps leave the same store and give the same answer, on every path. |
| `Refinement.SecureApiIsItsSteps` | gateway/internal/middleware/auth.go:43-185 | The middleware in one go and its steps leave the same replay cache and give the same answer, on every path. |
| `System.RowsHaveTheirClient` | gateway/internal/audit/db.go:104-130 | Every row of a tenant's tables was caused by a served request of the one registered client that maps to the tenant. An audit row names that client's user and no other client's, and its action and details are what the request's path and body say; a transaction is of the body's amount to the nearest cent and has its description. |
| `System.BalancesNeverNegative` | gateway/internal/api/handlers.go:77-83 | No balance is negative in any run of the whole system. |
| `System.ServedAsAsked` | gateway/internal/api/handlers.go:60-83 | Every call served in any run asks the database for what its path and body say, in the tenant and subject of a registered client; a transfer has the amount and description of the body unchanged, and the amount is positive. |
| `System.UsersOfClients` | gateway/internal/audit/db.go:38-49 | Which user each client stands for, and that the zero UUID is that of all others. |
| `System.UsersIdentifyClients` | gateway/internal/audit/db.go:38-49 | Registered clients with one user are one client. |
| `Idp.Provider.AuthorizeHandler` | idp/handler/authorize.go:14-97 | Reply and store are those of `Idp.Authorized`. |
| `Idp.AuthorizedIff` | idp/handler/authorize.go:14-97 | Exactly which requests save a code, with what and for five minutes; the code is sent if and only if also the redirect URI parses and a headless client shows its secret; and when the refusal is invalid_client. |
| `Idp.Provider.TokenHandler` | idp/handler/token.go:23-161 | Reply and store are those of `Idp.Exchanged`. |
| `Idp.TokenIsIssuedIff` | idp/handler/token.go:23-161 | A token is issued if and only if the form is in order, its code is there, not run out and redeemed with its client's secret and verifier, the proof passes and no running lease claims its jti; the jti is claimed for 120 s exactly then. |
| `Idp.CodeIsSpent` | idp/handler/token.go:57-61 | Once the form is in order the code is gone, whatever the outcome. |
| `Idp.RefusedBecause` | idp/handler/token.go:57-108 | Which error a form that is in order is refused with, check by check. |
| `Idp.IssuedClaims` | idp/handler/token.go:111-150 | The claims of the token: the code's client, its tenant and role, the scope, 60 s from signing in whole seconds, and the thumbprint that the proof has shown. |
| `Idp.TokenLifetime` | idp/handler/token.go:111-135 | A token lives for at most 60 s and more than 59 s, as exp is rounded down. |
| `Idp.TenantsIdentifyClients` | idp/handler/token.go:115-126 | Registered clients with one tenant are one client, and none has the guest's. |
| `Idp.RolesOfClients` | idp/handler/token.go:117-125 | Which role each client has; guests are exactly the others. |
| `Gateway.AuthMiddleware.SecureAPI` | gateway/internal/middleware/auth.go:43-185 | Reply and replay cache are those of `Gateway.Secured`; the three latencies are recorded for requests that pass, and nothing for others. |
| `Gateway.SecuredIff` | gateway/internal/middleware/auth.go:43-150 | A request passes if and only if it bears a DPoP token, a proof that verifies for its method, host, path and token, a jti that no running lease claims, live claims bound to the proof's key, and a network identity that is the subject's, or none where none is enforced. Only the identity is Forbidden, all else Unauthorized; the jti is claimed for 120 s once the proof is good. |
| `Gateway.UriHoldsPath` | gateway/internal/middleware/auth.go:68-73 | Of the URI that proofs are checked against the path of the request is left. |
| `Gateway.HandledIff` | gateway/internal/api/handlers.go:60-83 | Which request of the database each path, body and claims lead to, and which requests are 404 or 400. |
| `Gateway.AuthMiddleware.EnforcePolicy` | gateway/internal/middleware/auth.go:230-327 | A request passes if and only if the reply allows it or, with none, the switch is fail-open; a denial is 403, no reply 503; the latency is recorded in any case. |
| `Gateway.RoutesHaveResources` | gateway/internal/middleware/auth.go:243-288 | What each route asks the policy: the claims' tenant and role, its own resource, and to create for POST, PUT and DELETE, to read for all other methods. |
| `TtlStore.JtiCache.IsJtiUsedAndSave` | gateway/internal/auth/jti.go:29-41 | A call that is not interrupted reports a live jti and saves any other with its new expiry. |
| `TtlStore.JtiCache.Cleanup` | gateway/internal/auth/jti.go:44-56 | One sweep leaves exactly the entries that have not expired. |
| `TtlStore.RamStore.GetAndRemoveAuthCode` | idp/store/memory.go:44-59 | After a call that is not interrupted the code is gone; it is worth something only if it was there and not expired. |
| `TtlStore.RamStore.Cleanup` | idp/store/memory.go:80-103 | One sweep leaves exactly the codes and jtis that have not expired. |
| `TtlStore.JtiSweepsInvisibleIff` | gateway/internal/auth/jti.go:29-56 | With the sweeper's look and delete apart: every call at every point of a run is answered as a full history of leases says if and only if no lease still running is deleted because it was given between a look at its jti and the delete. |
| `TtlStore.JtiSweepNoticed` | gateway/internal/auth/jti.go:44-56 | A run in which that happens and the jti passes again within its lease. |
| `CodeStore.HeldIff` | idp/store/memory.go:35-51 | With Load and Delete of a redemption and look and delete of a sweeper as separate steps: a code is there if and only if it was saved and no redemption or sweeper has deleted it. |
| `CodeStore.SweepsAreInvisible` | idp/store/memory.go:35-91 | In every interleaving a redemption is answered with what the code was saved with if it has not run out and no redemption has deleted it, and with nothing otherwise, whatever is swept. Codes are random: none is saved twice. |
| `CodeStore.AnsweredAgainIff` | idp/store/memory.go:44-59 | Once a redemption is answered, a later load of the code is answered too if and only if the code has not run out and no call has deleted it yet. |
| `CodeStore.CodeRedeemedTwice` | idp/store/memory.go:44-51 | A run in which two calls load before either deletes and both are answered. |
| `ReplayCache.PassesIff` | gateway/internal/auth/jti.go:29-41 | With clock reading, LoadOrStore, Store, sweeper look and sweeper delete as separate steps of any number of calls: a call is let through if and only if no running lease on its jti stands in the map when it loads. |
| `ReplayCache.PassesIffOverlapped` | gateway/internal/auth/jti.go:29-56 | A call that loads as it reads its clock is let through if and only if every running lease on its jti was overlapped: its call had not stored yet, or its entry was undone by a call that had loaded, or a sweeper that had looked, before it was written. |
| `ReplayCache.SpacedUnlessOverlapped` | gateway/internal/auth/jti.go:33-38 | Of two calls for one jti that are let through the second loads after the first one's lease, or the first was overlapped. |
| `ReplayCache.FirstIsSafe` | gateway/internal/auth/jti.go:31-32 | The first call for a jti is let through and never overlapped. |
| `ReplayRace.LetThroughIff` | gateway/internal/auth/jti.go:29-56 | The same condition for requests that check their proof's window first, in every run. |
| `ReplayRace.ExactlyOneBeforeExpiry` | gateway/internal/auth/jti.go:29-56 | Of the calls for a jti whose LoadOrStore precedes the expiry of the first call's entry exactly the first is let through, in every interleaving. |
| `ReplayRace.SecondAcceptanceBound` | gateway/internal/auth/crypto.go:209-212 | If a proof is let through twice, the first of the two read its clock at most d after its window opened, d being the second one's delay between its checks, and the second loaded no earlier than the window closed; or the first was overlapped, which never happens to the first call for the jti. |
| `ReplayRace.SecondAcceptanceWithoutDelay` | gateway/internal/middleware/auth.go:76-86 | Without delay and overlap, as when nobody had claimed the jti before, the two times are exactly 60 s before and 60 s after iat. |
| `ReplayRace.SecondAcceptanceAtTheEnds` | gateway/internal/auth/jti.go:33-38 | A run, for every jti and iat, in which that happens. |
| `ReplayRace.OverlappingLoadsBothPass` | gateway/internal/auth/jti.go:31-38 | A run in which two requests with one proof load one expired entry before either stores, and both pass at one instant in the middle of the proof's window. |
| `ReplayRace.SweeperErasesLease` | gateway/internal/auth/jti.go:44-56 | A run in which a sweeper that looked at an expired entry deletes the lease stored over it, and the same proof passes again a second later. |
| `JwksCache.Cache.FetchKeys` | gateway/internal/auth/crypto.go:81-115 | A document replaces all keys by its last usable entry per kid; a failure changes nothing. |
| `JwksCache.Cache.GetPublicKey` | gateway/internal/auth/crypto.go:52-78 | The answer is what the document held after the lookup gives for the kid. |
| `JwksCache.HeldIsLastSuccess` | gateway/internal/auth/crypto.go:52-115 | After any lookups the cache holds the document of the most recent successful fetch. |
| `JwksCache.ReturnedKeyIsCurrent` | gateway/internal/auth/crypto.go:58-68 | A returned key is the last usable entry of that document, which is younger than the TTL unless this lookup's own fetch failed. |
| `JwksCache.ServedGivesKey` | idp/handler/jwks.go:42-54 | The entry that the IdP serves gives the gateway the IdP's key. |
| `JwksCache.LookupsFindTheKey` | gateway/internal/auth/crypto.go:52-115 | Where the endpoint has always served one such entry and was asked at least once with success, every lookup of its ID gives its key. |
| `DpopProof.GenerateDPoPProof` | client/crypto/crypto.go:55-105 | The proof names the padded key, method, URI, second, jti and, if there is a token, its digest. |
| `DpopProof.HtuIsEquivalence` | gateway/internal/auth/crypto.go:245-263 | The URI comparison is an equivalence and compares what is left without scheme and host. |
| `DpopProof.StripLeavesPath` | gateway/internal/auth/crypto.go:255-263 | Of a URI with scheme and host the path is left, or a slash if there is none. |
| `DpopProof.GatewayAcceptsIff` | gateway/internal/auth/crypto.go:148-242 | Exactly which proofs the gateway accepts for a method and a path: algorithm, key and signature, exp and nbf, htm up to case, the path of htu, iat within 60 s, a jti, and ath. |
| `DpopProof.IdpAcceptsIff` | idp/crypto/dpop.go:82-161 | Exactly which proofs the IdP accepts: ES256, the signature, exp and nbf, htm up to case, htu up to case and query, iat within 60 s, and ath. |
| `DpopProof.GeneratedProofPassesGateway` | gateway/internal/auth/crypto.go:193-242 | A generated proof passes for its method and token if and only if the clock is in the window and the URIs match, and yields the client's thumbprint. |
| `DpopProof.GeneratedProofSurvivesProxy` | gateway/internal/auth/crypto.go:199-203 | It passes under any rewritten scheme and host. |
| `DpopProof.GeneratedProofPassesIdp` | idp/crypto/dpop.go:82-161 | At the IdP a generated proof passes if and only if the clock is in the window and the parts of the URIs before their queries are equal up to case. |
| `Jwk.PadCoordinate` | idp/handler/jwks.go:37-40 | Copying into a zero buffer gives the 32-byte big-endian form of the coordinate. |
| `Jwk.GatewayReadsBack` | gateway/internal/auth/crypto.go:118-136 | The gateway decodes a published key to the original integers. |
| `Jwk.IdpReadsBack` | idp/crypto/dpop.go:56-79 | So does the IdP. |
| `Jwk.ThumbprintsAgree` | idp/crypto/dpop.go:37-54 | Client, IdP and gateway compute one thumbprint for every key with coordinates below 2^256. |
| `Jwk.DecodableTextsAgreeIff` | idp/crypto/dpop.go:40-47 | For keys that decode, the texts hashed by IdP and gateway are equal if and only if no coordinate is written with a line break. |
| `Jwk.ThumbprintIdentifiesKey` | client/crypto/crypto.go:36-52 | Keys with one thumbprint are one key, or here is a SHA-256 collision. |
| `Jwk.CanonicalForm` | client/crypto/crypto.go:36-52 | The hashed text is that of section 3 of RFC 7638. |
| `Base64Url.DecodeEncode` | gateway/internal/auth/crypto.go:119-127 | Decoding unpadded base64url gives back the bytes encoded. |
| `Base64Url.SextetsHoldTheNumber` | gateway/internal/auth/crypto.go:119-127 | Three bytes and their four six-bit values are one number, highest first, and what is left over is padded with low zero bits. |
| `DerToJose.Convert` | dashboard/src/app/api/benchmark/route.ts:31-52 | On every buffer: it throws if and only if a part is longer than 32 bytes, else gives 64 bytes holding the values of the two parts; on the DER form of any r, s in range exactly r then s. |
| `DerToJose.DerIsPaddedToJose` | dashboard/src/app/api/benchmark/route.ts:32-49 | On the minimal DER form both parts are found and fit, and their padding is the JOSE form. |
| `DerToJose.JoseInjective` | dashboard/src/app/api/benchmark/route.ts:45-51 | Different signatures have different JOSE forms. |
| `Metrics.KeyRoundTrip` | gateway/internal/telemetry/metrics.go:31-79 | Splitting a counter's key at its last colon gives back handler and status, whatever colons the handler has. |
| `Metrics.CounterOfPair` | gateway/internal/telemetry/metrics.go:28-33 | Every (handler, status) pair has a counter of its own that counts its increments and no others. |
| `Metrics.CountersAddUp` | gateway/internal/telemetry/metrics.go:28-33 | The counters add up to the number of increments. |
| `Metrics.RequestLineForm` | gateway/internal/telemetry/metrics.go:66-79 | The line of a counter in the Prometheus text format. |
| `Metrics.GaugeLineForm` | gateway/internal/telemetry/metrics.go:82-98 | The lines of the gauges. |
| `Metrics.MetricsStore.IncrementRequestCounter` | gateway/internal/telemetry/metrics.go:28-33 | One increment of one key. |
| `Metrics.MetricsStore.ServeMetrics` | gateway/internal/telemetry/metrics.go:60-98 | The text is header, one line per counter in some order of the map, and the six gauges. |
| `Metrics.MatchFill` | dashboard/src/app/api/metrics/route.ts:31 | A line printed from a pattern is matched with what was put in. |
| `MetricsParser.Parse` | dashboard/src/app/api/metrics/route.ts:25-52 | The loop computes the parse of the text's lines. |
| `MetricsParser.ServedTextIsReadBack` | dashboard/src/app/api/metrics/route.ts:25-52 | Parsing the served text, in any map order, gives back every counter and every gauge. |
| `MetricsParser.DashboardShowsHistory` | dashboard/src/app/page.tsx:210-212 | After any history of increments the dashboard shows each pair that occurred exactly once with its number of occurrences, a throughput equal to the number of increments, and every gauge under its name. |

## Left out

- GetPublicKey: lookups are sequential; the lock interleavings of concurrent lookups are not modelled.
- GetAuditLogs: the text of JSONB details and of timestamps is a parameter.
- CreateTransaction: stated for a drawn id that no open transaction holds, since the insert would otherwise wait for that transaction to end; the steps model the wait, as a step that cannot be taken yet. Deadlocks and lock timeouts are not modelled.
- CreateTransferHandler: has the same requirement, for the call it makes.
- Pool connections: the limits of 25 open and 5 idle connections and their lifetime, and waiting for a free one, are not modelled.
- Inserts by the superuser, which bypass row-level security, and the dashboard's other routes.
- Amounts are the decimal numbers that reach the database; the float64 of the request and its text are not modelled.
- Integer widths: BIGSERIAL ids and int64 counters do not wrap; counts above 2^53 are handled by the rounding parameter of the parser.
- Case folding is that of ASCII; the Unicode folding of strings.EqualFold is not modelled.
- VARCHAR limits of action and resource: the gateway writes constants that fit.
- JSON and URL parsing, JWT encoding, random generation, ECDSA, SHA-256 and HMAC: their results are inputs or parameters. A fractional iat is not modelled.
- The network identity is an optional string; OpenZiti, TLS, gRPC transport, reflection on connections and environment parsing are not part of this model.
- RequireRole and gateway/internal/policy/pdp.go are not wired into the routes. The refresh token is an opaque string that nothing accepts.
- The missing-client branch of EnforcePolicy (no policy client configured) and its missing-claims branch: the routes always supply both.
- The attributes sent to the policy decision point beside tenant, subject, action and resource, and response headers.
