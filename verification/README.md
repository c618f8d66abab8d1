# Tusker: a verified model of its job queue, token vault and template overlay

Tusker keeps three pieces of state that many requests and workers change at once: a table of
background jobs, a table of OAuth tokens under envelope encryption, and per-tenant e-mail templates
laid over built-in ones. This project models the code that changes them and proves what it
guarantees, for every input, every run and every interleaving.

`dafny verify dfyconfig.toml` checks everything.

## How it is organised

| module | what it holds |
|---|---|
| `Backoff` | the retry delay in wrapping 64-bit arithmetic |
| `Payloads` | the JSON objects of the payload column, marshalled and unmarshalled field by field |
| `Jobs` | a row of the jobs table and what each statement does to it |
| `Lifecycle` | the reference: one job as an automaton with atomic, guarded moves |
| `Queue` | the queue as it is: any number of workers interleaving the statements of `processNext`, with row locks, lost replies, failed updates and crashes |
| `QueueInvariant` | what every step of the queue keeps, and the step-by-step refinement of `Lifecycle` |
| `QueueRuns` | the guarantees over whole runs |
| `Accounting` | budgets, the measure that makes the queue stop |
| `Overtaking` | fairness of `ORDER BY run_at`: a bound on overtaking known when the wait begins |
| `Scenarios` | building blocks of concrete runs: one worker, one job, attempt after attempt |
| `RunLimits` | re-execution and the backoff over runs: exactly when they are as promised, with runs that break them |
| `OvertakingLimits` | for which clocks and attempt limits that bound holds, with runs that break it beyond them |
| `JobTable` | the tables changed in place, with the partial index on `run_at` |
| `Worker` | `processNext` and the polling loop on those tables, each a legal run of `Queue` |
| `Dispatch` | the dispatch table, and queued requests against `?sync=true` |
| `Crypto` | framing, data keys and root key over an arbitrary lawful cipher |
| `Vault`, `VaultRuns` | callbacks, refreshes, reads and deletes of tokens, interleaved at every provider and database call |
| `VaultHistory` | what the store holds and answers, read off the steps of a run |
| `Rotation` | refresh tokens over runs: the one stored against the one issued last |
| `Deletion` | when a deleted token can come back without its user authorizing again |
| `LostUpdates` | runs from an empty store in which a new refresh token or a delete is lost |
| `TokenHandler` | the OAuth handlers on the encrypted tables, stated on their decrypted view |
| `Templates` | the template table, its lookup and its merged list |

Modelling decisions:

- Ids are natural numbers (UUIDs are only compared), times are integers (nanoseconds). `attempt` is a
  natural number bounded by `max_attempts`, which is a 32-bit column; the handlers never set
  `max_attempts`, so it is 3 in practice, and every result here holds for any value from 1 on unless it states a limit.
- `status` ranges over the four strings the code writes.
- Two clocks: `run_at`, `started_at` and `created_at` come from the database, the backoff base and
  `completed_at` from the worker, whose clock may be off by `skew`. The worker reads its clock when the
  executor returns, which may be long before its update commits.
- A claim locks its row in one step and commits in another; `NOW()` is fixed at the first.
- Nothing returns a job left running by a dead worker. Such jobs are collected in `stranded`, and
  `QueueRuns.StrandedForEver` proves that they stay so.
- The cipher is a pair of function values of the subset type `Aead`: opening undoes sealing, sealing
  adds 16 bytes. Random bytes, provider answers and executor outcomes are inputs.

Where documentation and code differ, the code is followed: `docker-compose.yml` says that concurrent
workers never process a job twice. The model proves this for attempts (`QueueRuns.NoAttemptRunsTwice`). For
jobs it is false: a job whose insert reply was lost is executed again after its result has been written, and
`RunLimits.NeverRerunsIff` proves that this is possible exactly if such a reply can be lost.

Laws that hold only under a condition, with the condition proved exact:

- The backoff formula means what it says exactly up to attempt 29 (`Backoff.DelayExactIff`); attempt 30
  schedules a retry in the past (`Backoff.DelayOverflows`), from attempt 54 on there is no delay at all.
- While a job waits, the claims that pass it are at most the contenders present when its wait began. For
  all runs with at most `limit` attempts a job this holds exactly if `limit <= 1`, or clocks are at most
  20 seconds apart and `limit <= 30` (`OvertakingLimits.OvertakingBoundIff`); `max_attempts` is 3 in practice.
- A job is never claimed again after its result has been written exactly if inserts cannot commit and yet be
  reported as failed (`RunLimits.NeverRerunsIff`).
- In all runs with at most `limit` attempts a job, for clocks less than eleven years apart, no claim comes
  before its backoff allows exactly if `limit <= 30` (`RunLimits.BacksOffIff`).
- When no worker is busy, no job is running exactly if the run had no fault (`QueueRuns.IdleNoneRunningIffNoFault`).
- The unguarded status update equals a guarded one on an arbitrary table exactly when the guard holds
  or nothing would change (`QueueRuns.UpdatesAgreeIff`); in reachable states it always does.
- A refresh leaves the refresh token that section 6 of RFC 6749 asks for, the one issued last, exactly if
  the one it stores has not been superseded since it arrived, or since the row was read if none came with
  the answer (`Rotation.RefreshLeavesLastIssuedIff`). An answer that repeats the refresh token it was shown,
  as OAuth client libraries do, is no issue. Two overlapping requests can end with an older one stored in
  two ways (`LostUpdates.LaterRotationIsOverwritten`, `LostUpdates.OldRefreshTokenIsPutBack`).
- Over requests that do not overlap, the one issued last is stored exactly if no request holds a new one
  yet and none was abandoned between receiving one and storing it (`Rotation.RefreshTokenRetainedIff`,
  `LostUpdates.AbandonedRotationIsLost`).
- A token that is not stored can come to be stored without its user authorizing again exactly if a request
  is in flight that may write it (`Deletion.DeletedStaysDeletedIff`, `LostUpdates.DeletedTokenReturns`).
- An executor rejects another one's payload exactly between e-mail and SMS (`Dispatch.RejectsIff`); only the
  job type keeps the other pairs apart.
- The merged template list is free of duplicates exactly when no two rows share a name that is not a
  default's (`Templates.DuplicateFreeIff`); the unique constraint provides that.

## Model

| member | source | states |
|---|---|---|
| Backoff.DelayExactIff | internal/worker/worker.go:88 | in 64-bit wrapping arithmetic the delay equals 10 * 2^attempt seconds if and only if attempt <= 29 |
| Backoff.DelayDoubles | internal/worker/worker.go:88 | for attempts 1..29 the delay is at least 20 seconds and doubles from one attempt to the next |
| Backoff.DelayOverflows | internal/worker/worker.go:88 | at attempt 30 the delay is about minus 244 years |
| Backoff.DelayZeroIff | internal/worker/worker.go:88 | the delay is zero if and only if attempt >= 54 |
| Lifecycle.MoveKeepsRow | internal/worker/worker.go:71-105 | every timely move of the job automaton keeps all columns of a row coherent, the backoff lower bound on run_at included |
| Lifecycle.MovePreserves | internal/store/jobs.sql.go:113-121 | a move never changes tenant, type, payload, max_attempts or creation time, never lowers attempt, and never leaves completed or failed |
| QueueInvariant.StepRefinesLifecycle | internal/worker/worker.go:59-109 | any step of any worker in a state satisfying the invariant is, for each job, one atomic guarded move of its automaton or a stutter |
| QueueInvariant.InvStep | internal/worker/worker.go:59-109 | every step, faults included, keeps rows, locks, ownership, coverage, claim log, end log and results |
| QueueRuns.RunRefinesLifecycle | internal/worker/worker.go:59-109 | in every run, each job's rows form a path of its automaton whatever the other jobs and workers do |
| QueueRuns.OneRowPerStep | internal/worker/worker.go:59-109 | these paths are interleaved one move at a time: no step changes two rows |
| QueueRuns.UnguardedUpdateIsCompareAndSet | internal/store/jobs.sql.go:113-121 | in every reachable state the update by id alone finds its row and equals an update guarded by "still running the attempt I claimed" |
| QueueRuns.UpdatesAgreeIff | internal/store/jobs.sql.go:113-121 | on arbitrary tables the guarded and unguarded updates agree exactly when the guard holds or the row would not change |
| QueueRuns.ExclusiveOwnership | internal/store/jobs.sql.go:16-29 | a worker past its claim alone holds a running row equal to its snapshot; locked rows are pending and have one holder |
| QueueRuns.NoAttemptRunsTwice | internal/store/jobs.sql.go:17-20 | the claims logged for a job are exactly 1..attempt, its endings a prefix of them, and there are at most max_attempts |
| QueueRuns.StatusFollowsOutcomes | internal/worker/worker.go:69-109 | in every interleaving, a row that is not running is completed exactly if one of its executions succeeded, which was the last, and failed exactly if all max_attempts failed; its error is the message of the last |
| QueueRuns.RunningAfterFailures | internal/worker/worker.go:87-105 | a running row has failed in all earlier attempts, and its own has ended only if a live worker holds that outcome or the job is stranded |
| QueueRuns.RowsPersist | internal/store/jobs.sql.go:113-121 | over any run no row disappears or changes identity, and attempts only grow |
| QueueRuns.EndsAreAbsorbing | internal/worker/worker.go:72-105 | a completed or failed row never changes again |
| QueueRuns.StrandedForEver | internal/worker/worker.go:61-67 | a job whose worker was lost stays running and untouched for the rest of the run |
| QueueRuns.RowCoherence | internal/worker/worker.go:72-105 | completed_at, started_at, error and attempt agree with the status of every reachable row, and under one clock a completed row has its four times in order after any number of attempts |
| QueueRuns.RowTimes | internal/worker/worker.go:71-96 | started_at is the time of the last claim, completed_at the worker's clock reading of the successful execution, run_at the creation time or 10 * 2^k seconds after the clock reading of the k-th failure (k <= 29) |
| QueueRuns.CreatedRow | internal/store/jobs.sql.go:51-55 | a Create step adds a row with exactly its arguments and the defaults of the other columns, created and due now |
| QueueRuns.BackoffOverRuns | internal/worker/worker.go:87-96 | up to the 30th, the n-th claim is never earlier than creation + 20 * (2^(n-1) - 1) seconds, less the skew once per failure |
| RunLimits.BacksOffIff | internal/worker/worker.go:87-96 | every claim of every run with at most limit attempts keeps that bound if and only if limit <= 30, for clocks less than eleven years apart |
| QueueRuns.ResultsAgreeWithStatus | internal/api/executor.go:90-114 | with all-or-nothing inserts the number of result rows is fixed by the status; with lost replies it is at least one on completed code jobs and at most attempt on all; tenants always match |
| QueueRuns.CompletedJobHasResult | internal/api/code_handler.go:125-145 | once a code job is completed, its execution is found under its own tenant and no other |
| QueueRuns.NeverRerunAfterResult | internal/api/executor.go:103-113 | without lost insert replies a job is never pending nor claimed again after its result was written |
| RunLimits.NeverRerunsIff | internal/api/executor.go:103-113 | in all runs no job is claimed again after its result was written, if and only if an insert cannot commit and be reported as failed |
| QueueRuns.Conservation | internal/worker/worker.go:59-109 | all jobs = pending + held by live workers + stranded + completed + failed, as disjoint sets, in every reachable state |
| QueueRuns.JobsAreCreations | internal/store/jobs.sql.go:51-55 | at any point of a run the number of jobs is the number of creations so far |
| QueueRuns.IdleNoneRunningIffNoFault | internal/worker/worker.go:59-109 | when no worker is busy, no job is running if and only if the run had no lost reply, lost update or crash |
| Accounting.StepBooks | internal/store/jobs.sql.go:17-20 | claims logged equal attempts summed over all jobs, and the potential drops with every claim and every status update |
| Accounting.ClaimsWithinAllowance | internal/worker/worker.go:87-105 | over any run the executions started are at most the sum of max_attempts over the jobs created |
| Accounting.ProgressIsBounded | internal/worker/worker.go:59-109 | from any point of a run the claims and updates still to come are bounded by what present jobs have left and new jobs bring |
| Overtaking.SelectionShrinksAhead | internal/store/jobs.sql.go:21-27 | a selection made while a due job waits takes that job or removes one from the set ahead of it |
| Overtaking.ContendersStepIff | internal/worker/worker.go:71-96 | a claim uses up one contender of a waiting job, and the number rises in a step exactly if a worker's clock reading plus the backoff falls at or before the run_at of the waiting job |
| Overtaking.RetriesGoToTheBack | internal/worker/worker.go:88-96 | with clocks at most 20 seconds apart and at most 30 attempts no retry is dated before a due job, however late it is written |
| Overtaking.BoundedOvertaking | internal/store/jobs.sql.go:21-27 | while a due job waits, the claims that pass it are at most the jobs ahead of it, the claims under way and the late retries at the moment its wait began, whatever crashes, rolls back or is created |
| Overtaking.NoStarvation | internal/store/jobs.sql.go:21-27 | once more claims are made than that number, the waiting job has been selected |
| OvertakingLimits.OvertakingBoundIff | internal/worker/worker.go:88-96 | the bound holds in all runs with at most limit attempts if and only if limit <= 1, or clocks differ by at most 20 seconds and limit <= 30 |
| JobTable.Table.SelectForUpdate | db/migrations/000003_jobs.up.sql:15 | answering from the sorted pending index, under any row locks, returns a row the full scan ordered by run_at could return, and none exactly when the scan finds none |
| JobTable.Table.CreateJob | internal/store/jobs.sql.go:51-81 | one row with the column defaults is added and the index stays exact |
| JobTable.Table.ClaimNextJob | internal/store/jobs.sql.go:16-49 | the first claimable row becomes running with attempt + 1 and nothing else changes; no row exactly if none is claimable |
| JobTable.Table.UpdateJobStatus | internal/store/jobs.sql.go:113-155 | the row with that id gets exactly the four columns, whatever its status; no row if there is none; the index stays exact |
| JobTable.Table.GetJob | internal/store/jobs.sql.go:83-111 | a job is returned to its own tenant only |
| JobTable.InsertKeepsOrder | db/migrations/000003_jobs.up.sql:15 | inserting an id before the first later run_at keeps the index sorted, duplicate-free and equal to the pending rows |
| Worker.AttemptIsARun | internal/worker/worker.go:59-109 | claim, execution, clock reading and update by any idle worker, whatever the others hold or have locked, form a legal run of the interleaved queue with exactly this effect |
| Worker.Loop.ExecuteJob | internal/api/executor.go:38-114 | case by case: the texts for an unknown tenant and an unknown type, the decoder's error, the builder's error, the failure of the provider called with exactly the decoded arguments, the error of the insert, and success otherwise; exactly a successful code execution leaves a result row, nothing else is written |
| Worker.SucceedsLikeSync | internal/api/executor.go:38-48 | an attempt of a queued request succeeds exactly if the synchronous branch would reach a provider, that provider succeeds, and the result of a program can be inserted |
| Worker.Loop.ProcessNext | internal/worker/worker.go:59-109 | one call is a legal run of the queue: nothing if nothing is due, otherwise the first claimable row is claimed and finished by its outcome |
| Worker.Loop.Drain | internal/worker/worker.go:46-109 | without faults the loop ends; a pending job ends completed exactly if one of its remaining attempts succeeds, with the first such attempt, and failed exactly if all fail |
| Dispatch.Handler.RegisterExecutors | internal/api/executor.go:25-35 | the table maps "email.send", "sms.send" and "code.execute" to their executors and has no other key |
| Dispatch.PayloadsRoundTrip | internal/code/provider.go:17-22 | every payload is read back as it was written, an omitted stdin included |
| Dispatch.PayloadColumns | internal/code/provider.go:17-22 | each payload column holds exactly the keys of its type, stdin only if it is not empty, with the request's values under them |
| Dispatch.AsyncRefinesSync | internal/api/handler.go:410-453 | a queued request makes the same provider call or fails with the same provider error as the synchronous branch, never as an unknown type or unreadable payload |
| Dispatch.DecodingTable | internal/api/executor.go:55-101 | what each executor makes of each other one's payload: e-mail and SMS reject each other's, every other pair is decoded with the missing fields at zero |
| Dispatch.RejectsIff | internal/api/executor.go:55-101 | an executor answers "invalid payload" to a queued request if and only if one is for e-mail and the other for SMS |
| Dispatch.QueuedRequestIsServed | internal/api/sms_handler.go:74-103 | in every run, a worker executing the job of a queued request, at any attempt, calls the provider as the synchronous branch would |
| Crypto.FrameRoundTrip | internal/crypto/crypto.go:59-93 | decrypting an encrypted text gives it back; the stored form is the 12 bytes of the nonce and then the sealed text, 28 bytes longer than the plaintext |
| Crypto.Encrypt | internal/crypto/crypto.go:60-75 | fails exactly for a bad key or missing randomness, otherwise returns nonce followed by the sealed text, consuming one nonce |
| Crypto.RandomReader.ReadFull | internal/crypto/crypto.go:69-72 | fills the whole buffer with the next bytes, or fails exactly if there are too few |
| Crypto.Encryptor.GenerateDataKey | internal/crypto/crypto.go:32-42 | returns the next 32 random bytes as the key, with a sealed form that opens to it, consuming 44 bytes; fails exactly if there are fewer |
| VaultRuns.InvStep | internal/api/handler.go:109-318 | every interleaved step keeps keys, configs, rows, requests in flight, the provider's ledger and the answers given consistent |
| VaultRuns.TokenProvenance | internal/api/handler.go:195-299 | every stored row decrypts under its tenant's key to tokens issued for that tenant, provider and user, access token and expiry of one issue; so does every answer |
| VaultRuns.EnvelopeHolds | internal/crypto/crypto.go:44-57 | each encrypted column decrypts through root key and data key to the plaintext recorded at its last write, a kept refresh token included; buildProvider succeeds exactly for configured Google clients |
| VaultHistory.TenantKeyIsCreated | internal/tenant/tenant.go:40-48 | the data key of a tenant is, ever after, the one its creation step brought |
| VaultHistory.ConfigIsLastSet | internal/api/handler.go:67-72 | buildProvider yields the client id and the secret of the last step that set that config |
| VaultHistory.CallbackIsStored | internal/api/handler.go:139-184 | from a callback on, until the key is written again, its row decrypts to exactly the token the code was exchanged for |
| VaultHistory.RefreshIsStored | internal/api/handler.go:262-298 | from a refresh on, it decrypts to the access token and expiry of the provider's answer, with its refresh token or, if it sent none, the one in the row that was read |
| VaultHistory.ReadIsAnswered | internal/api/handler.go:209-240 | a read without refresh answers with what the row decrypts to, and only if that has no expiry or at least 30 seconds left |
| VaultHistory.RefreshIsAnswered | internal/api/handler.go:219-240 | a refresh is tried only with less than 30 seconds left and answered with the access token and expiry just sent |
| VaultHistory.LedgerIsIssues | internal/api/handler.go:139-262 | a token is in the provider's ledger if and only if some exchange or refresh step issued it |
| VaultRuns.StoredLengths | internal/api/handler.go:248 | in every reachable state each sealed column is 28 bytes longer than the plaintext last written, so an empty refresh column means no refresh token |
| VaultRuns.RefreshOwner | internal/api/handler.go:252-262 | the refresh token shown to the provider belongs to the key whose row it was read from |
| VaultRuns.IdentifiedOwner | internal/api/handler.go:139-184 | the user a callback stores under is the user its access token was issued to |
| Rotation.RefreshLeavesLastIssuedIff | internal/api/handler.go:247-299 | a request that read the refresh token issued last leaves the one issued last if and only if what it stores was not superseded since its own new one arrived, or since its read if it got none |
| Rotation.CallbackLeavesLastIssuedIff | internal/api/handler.go:139-184 | a callback leaves the refresh token issued last if and only if its own was not superseded; without one, only if the user was never issued any |
| LostUpdates.LaterRotationIsOverwritten | internal/api/handler.go:247-299 | a run from an empty store in which two overlapping refreshes are both rotated and the earlier one is stored last |
| LostUpdates.OldRefreshTokenIsPutBack | internal/api/handler.go:272-279 | a run in which an overlapping refresh that got no new refresh token, or the one it showed, puts the replaced one back |
| LostUpdates.AbandonedRotationIsLost | internal/api/handler.go:262-296 | a run without overlap in which a refresh fails after the provider rotated, leaving the old refresh token |
| Rotation.RefreshTokenRetainedIff | internal/api/handler.go:272-298 | over requests that do not overlap, with no callback or delete, a stored refresh token is never lost, every request stores over the row it read, and the one issued last is stored if and only if no request holds a new one and none was abandoned with one |
| Rotation.ClearedExactlyByCallbackOrDelete | internal/api/handler.go:163-170 | in every interleaving a stored refresh token is cleared by a delete or a callback without one, and by nothing else |
| Deletion.DeletedStaysDeletedIff | internal/api/handler.go:302-318 | a missing token is stored in some continuation without its user authorizing again, if and only if an authorized callback, an answered refresh or one with a refresh token to show is in flight for it |
| Deletion.InFlightRefreshUndoesDelete | internal/api/handler.go:286-298 | an answered refresh stores the row again right after a delete |
| LostUpdates.DeletedTokenReturns | internal/api/handler.go:286-298 | a run from an empty store in which that happens |
| TokenHandler.Handler.CreateTenant | internal/tenant/tenant.go:31-53 | fails exactly for missing randomness or a taken key hash; otherwise the API key is the next 32 random bytes and identifies the new tenant, every earlier key its own; the data key is the 32 bytes after them, and no stored token changes meaning |
| TokenHandler.Handler.SetProviderConfig | internal/api/handler.go:44-81 | afterwards the provider is built with exactly this client id and secret, all others as before |
| TokenHandler.Handler.Callback | internal/api/handler.go:109-192 | each reply with its exact condition (400 unknown tenant, 502 failed exchange or user info, 500 otherwise); success names the user the provider named and sets exactly that key of the decrypted view to the exchanged token |
| TokenHandler.Handler.RefreshAndStore | internal/api/handler.go:247-299 | shows the stored refresh token to the provider and merges its answer into that key, or changes nothing |
| TokenHandler.Handler.GetToken | internal/api/handler.go:195-243 | 404 exactly without a row; a token with no expiry or at least 30 seconds left is granted unchanged; any other is granted only as just refreshed and is then stored with the new or the kept refresh token; otherwise 502 and nothing changes |
| TokenHandler.Handler.DeleteToken | internal/api/handler.go:302-318 | removes one key from the decrypted view |
| TokenHandler.ServeKeepsRefreshTokens | internal/api/handler.go:272-279 | other keys are untouched, a refresh token only ever gives way to the one just issued, and a granted token is the one stored |
| TokenHandler.UninterruptedRefreshServes | internal/api/handler.go:219-225 | the three interleavable steps of a refresh, taken without interruption, have on the decrypted table the effect and answer of Serve |
| TokenHandler.PlainIsView | internal/crypto/crypto.go:44-57 | in every state of the interleaved store decrypting the table gives the plaintexts last written |
| Templates.LookupUpserted | internal/store/email_templates.sql.go:90-99 | a lookup after an upsert sees the new row under its tenant and name, and everything else as before |
| Templates.LookupDeleted | internal/store/email_templates.sql.go:14-17 | a lookup after a delete finds nothing under that tenant and name, and everything else as before |
| Templates.LastEditDecides | internal/api/email_template_handler.go:17-54 | after any run of upserts and deletes rows are unique and a lookup answers by the last edit of that tenant and name |
| Templates.DuplicateFreeIff | internal/api/email_template_handler.go:82-93 | the merged names are distinct if and only if no two rows share a name that is not a default's |
| Templates.MergeCovers | internal/api/email_template_handler.go:82-93 | for every iteration order the merged names are exactly those that resolve, each once |
| Templates.DeleteReverts | internal/api/email_template_handler.go:119-135 | after a delete both list and lookup show the built-in of that name, not custom, or nothing |
| Templates.Store.Upsert | internal/store/email_templates.sql.go:90-129 | the table changes as the upsert says and stays unique |
| Templates.Store.Delete | internal/store/email_templates.sql.go:14-27 | the table changes as the delete says and stays unique |
| Templates.Store.ListRows | internal/store/email_templates.sql.go:55-88 | every row of the tenant once and no other, in the order of any collation of names |
| Templates.Store.ResolveTemplate | internal/api/email_template_handler.go:192-213 | the definition of the row matching tenant and name wherever it stands, else the built-in of that name, and nothing exactly if there is neither |
| Templates.Store.ListEmailTemplates | internal/api/email_template_handler.go:58-117 | no name twice, exactly the names that resolve with the definition they resolve to, custom exactly for rows; the defaults first, then the others in the order of names |

## Left out

- HTTP, Gin routing, JSON binding, status codes beyond those named, and the `sdk/` module: plumbing.
- Provider clients (`internal/email/smtp.go`, `internal/email/sendgrid.go`, `internal/sms/twilio.go`, `internal/oauth/google.go`, `internal/code/judge0.go`): each call is an arbitrary success, failure or crash.
- The JSON and JSONB libraries below the field level: invalid UTF-8, NUL characters and case-insensitive key matching are not modelled.
- AES-GCM, SHA-256 and the quality of randomness: no secrecy or authenticity is claimed; the hex forms of the root key and of API keys are not part of this model.
- `internal/oauth/state.go` and the redirect built from it: a callback receives its tenant as an input.
- Template rendering and validation: template strings are opaque.
- PostgreSQL below the statement: each statement is atomic except for the lock and commit of a claim and the lost replies; general database errors of the template and token queries are left out.
- The test client, Docker, Terraform and shell scripts.
- Worker.Loop: one worker on its own; the interleaving of several is the subject of `Queue`.
- Worker.Loop.ExecuteJob: an insert that fails writes nothing; one that commits and is reported as failed is a step of `Queue`.
- Worker.Loop.Drain: assumes that no reply is lost and no worker dies, since otherwise a job may stay running for ever.
- Overtaking.NoStarvation: says that the waiting job is selected; a worker that then hangs or dies before its claim commits can still delay it, and the wait starts afresh.
- VaultRuns.TokenProvenance: assumes that a provider never issues the same access or refresh token to two users.
- TokenHandler.Handler: serves one request at a time; the interleavings are the subject of `Vault`.
- JobTable.Table.CreateJob: takes `max_attempts` and the fresh id as parameters, where the table uses its defaults.
- `CreatedAt` and `UpdatedAt` of token and template rows, and the output columns of `code_executions`: written and never read by the code modelled here.
