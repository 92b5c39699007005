# VaultKey: a verified model of its stateful protocols and exact arithmetic

VaultKey signs blockchain transactions for projects: a request becomes a row in `signing_jobs` and an envelope in a
Redis queue, and a pool of workers moves it to `completed` or `dead`. Around that sit a prepaid credit ledger with
Stripe purchases and monthly grants, a rate limiter, a cached token registry, stablecoin transfers, nonce counters and
organisation membership. This project models those parts in Dafny and proves what they keep.

`dafny verify dfyconfig.toml` checks the whole project.

## How the model is built

- Postgres rows and Redis keys are maps, sequences and sets. One SQL statement or one Redis command is one atomic step;
  `Requeue` is two steps, because it is two commands, and either may fail.
- Where the Go code changes state in place, the model has a class whose methods do the same. Each method is proved
  against a function on values, and the properties are proved about those functions.
- Where several processes interleave, the model is a transition system: `Pipeline` (worker pool, crashes, recovery),
  `LedgerTx` (row-locked transactions), `MembershipRuns` (handlers stepped at their statements), `RegistryTimed`
  (look-ups that read and fill the cache in two steps), `Nonce`, and the event histories of `Payments` and `Grants`. A run
  is any sequence of actions; one that is not enabled does nothing. `Worker`, `Submission` and `MembershipRuns` prove that
  the methods, run without interference, are runs of those systems.
- Outcomes of signing, balances, database failures, lost replies, event deliveries, clock readings and fresh identifiers
  are inputs.

| file | models |
|---|---|
| `Queue`, `Store`, `Submission`, `Worker` | the three Redis lists, the job table, `submitJob`, one worker |
| `Resubmission` | jobs submitted more than once: what their row keeps, when it stays ended, when they can run |
| `DeadLetters`, `Outcomes`, `Rounds` | the dead-letter list, what a row says of its attempts, and whole rounds of one worker |
| `Pipeline`, `PipelineSafety`, `PipelineBudget`, `PipelineDrain` | the pool as a transition system, and its theorems |
| `Ledger`, `LedgerTx`, `Payments`, `Grants` | balances and ledger rows, concurrent transactions, purchases, monthly grants |
| `Numerals`, `Amount`, `Calldata` | decimal amounts and ERC-20 calldata |
| `Limiter`, `Nonce` | the sliding window and the nonce counter |
| `Registry`, `RegistryTimed`, `Transfer` | the token cache, its staleness, and transfers built on it |
| `Membership`, `MembershipRuns`, `SecondOrganisation` | members and invites, their interleavings, and when onboarding can happen twice |

## Where the code and what is written about it differ

The model follows the code. All but the last two points are lemmas.

- The queue is described and tested as first-in-first-out (`internal/queue/queue.go:54-55`, `internal/queue/queue_test.go:154-185`).
  RPUSH with BRPOPLPUSH hands out the newest first: `Queue.NewestFirst`, `Queue.FifoIffPalindrome`.
- A sync to nonce p is said to make the next nonce p (`internal/nonce/manager.go:58-61`); it is p + 1:
  `Nonce.FirstNonceIffNoOffset`, stated for any seed offset; the code's is 1. The comment on `Peek` that the counter is one
  ahead of the last used nonce holds once a nonce was used: `Nonce.PeekIsLargest`.
- A job whose wallet is missing is failed without using an attempt (`internal/worker/worker.go:119-129`). It dies in its
  first round if its attempts had reached the budget, and otherwise comes back any number of times:
  `PipelineDrain.MissingWalletDiesIff`. `PipelineBudget.RetryBudget` bounds the sign starts, not the rounds.
- Completed and dead are meant to be final. For a job with one entry they are (`PipelineSafety.EndsAreAbsorbing`); with two
  entries a worker that read the row earlier reopens or overwrites it: `Resubmission.CompletedIsReopened` is a run, and
  `Resubmission.EndedStaysEndedIff`, `CompletedIsFinalIff` and `DeadStaysDeadIff` say exactly when an ended row is final.
- Submitting a dead job again is answered `pending` (`internal/api/handlers/handlers.go:303` tests only completed and
  processing), and it runs only if some worker on it can still sign or reopen it: `Resubmission.AcceptedCanRunIff`,
  `Resubmission.DeadJobIsNeverRetried`.
- A second onboarding request is meant to find the first organisation (`internal/api/handlers/cloud_handlers.go:96`). It does
  exactly while no request has slipped through and the user owns an organisation that is not deleted, or is a member of
  one that has no admin to let the user go and can get none: `SecondOrganisation.AnotherOrganisationIff`. The owner may
  delete the organisation and onboard again; a member of one without admins cannot onboard at all:
  `SecondOrganisation.OnboardsAgainIff`.
- A job that dies is meant to be kept in the dead-letter list. A crash between `MarkJobDead` and `MoveToDLQ` leaves it dead
  without a letter, and recovery only acknowledges its entry: `DeadLetters.LetterIff`.
- A chain id is called invalid unless it is an integer (`internal/stablecoin/service.go:547-554`); "137abc" is read as 137:
  `Payments.ScanReadsPrefix`.
- A free grant is marked before it is credited, so a failure between the two loses it for the month:
  `Grants.MarkedGetsGrantIff`.
- A payment whose row was not recorded is said to be caught by the webhook (`internal/api/handlers/payment_handler.go:143-144`).
  It is credited at every delivery, since marking it inserts an empty `org_id` into a UUID column:
  `Payments.UnrecordedPaysEveryTime`. The unique constraint that a comment proposes for this
  (`internal/api/handlers/payment_handler.go:276-278`) is in no migration.
- Retrying a payment that was answered with 500 is called safe (`internal/api/handlers/payment_handler.go:263-264`). When
  the credit was committed and its answer lost, the retry credits again; `Payments.CreditsCounted` counts the credits of
  any history.
- "One second" of the rate limiter is a window of microsecond scores, open below; in nanoseconds the bound holds up to
  999 999 000 and no further: `Limiter.NanosecondBound`. Requests in one nanosecond count as one, which breaks the bound
  for every limit above one: `Limiter.RepeatedClockBound`.
- An EVM transfer reads the token's decimals at the amount check and again for the payload. The payload moves the checked
  amount if and only if both are the same: `Transfer.EvmAmountIffDecimals`. They are as long as nobody writes the registry:
  `Transfer.EvmMovesChecked`. A Solana token may have several enabled rows, and then two look-ups can differ without any
  write: `Registry.LookupsAgreeIff`, `Registry.DecimalsAgreeIff`.
- Free operations are said to get a ledger row (`internal/credits/credits.go:137-138`); `Debit` returns before writing one,
  and the model does the same.
- `RecoverStalled` ignores its `maxAge` argument and so does the model. The format `%0*s` in `FormatAmount` is read as left
  zero-padding, which is what its comment says.

## Model

| member | source | states |
|---|---|---|
| Queue.NewestFirst | internal/queue/queue.go:54-86 | after any list of jobs is enqueued, as many dequeues return exactly those jobs, newest first |
| Queue.FifoIffPalindrome | internal/queue/queue.go:54-86 | the documented FIFO order holds exactly for job lists that read the same backwards |
| Queue.RecoveryUndoesDequeues | internal/queue/queue.go:67-144 | whatever number of jobs was handed out, recovery restores the lists as they were, order included |
| Queue.RequeueSnapshotRecovers | internal/queue/queue.go:124-144 | when no command fails, requeuing the snapshot item by item pushes every decodable entry of processing onto main, re-encoded, leaves exactly the entries LREM cannot match, and counts the decodable ones |
| Queue.RecoveryLosesDropped | internal/queue/queue.go:109-144 | when Requeue calls of recovery fail, it loses exactly the entries whose LREM took effect and whose RPUSH did not |
| Queue.RecoveryConservesIff | internal/queue/queue.go:124-144 | recovery in which no command fails neither loses nor duplicates an entry if and only if every decodable entry is the canonical encoding of its job |
| Queue.RecoveryLeavesOnlyMalformed | internal/queue/queue.go:124-144 | with canonical encodings, what stays in processing is exactly what does not decode |
| DeadLetters.DeadLetterLog | internal/queue/queue.go:67-153 | over every use of the queue the dead-letter list grows only at its head, by one job with its reason for each MoveToDLQ that takes effect and one raw entry for each malformed pop |
| DeadLetters.OnlyBuriesWrite | internal/worker/worker.go:390-408 | over every run of the pool, crashes and recovery included, its new elements are the jobs of the stored MoveToDLQ calls, the newest first |
| DeadLetters.DeadJobsAreBuried | internal/worker/worker.go:399-402 | in every run in which the job's MoveToDLQ calls take effect and no crash falls before them, a dead job that no worker has yet to bury has a dead letter whose reason is the error of its row |
| DeadLetters.LetterIff | internal/worker/worker.go:104-117 | a dead job that nobody is about to write comes to have a dead letter in some run if and only if it has one or a worker stands between its MarkJobDead and its MoveToDLQ |
| Queue.JobQueue.Enqueue | internal/queue/queue.go:56-62 | the job's encoding is appended to main and nothing else changes |
| Queue.JobQueue.Dequeue | internal/queue/queue.go:67-86 | the last entry of main moves to the head of processing; a malformed one is copied to the dead-letter list and yields no job |
| Queue.JobQueue.Acknowledge | internal/queue/queue.go:89-95 | the first match of the job's encoding leaves processing, unless the command fails |
| Queue.JobQueue.MoveToDLQ | internal/queue/queue.go:99-106 | the job with its reason is put at the head of the dead-letter list, unless the command fails (`DeadLetters.DeadLetterLog` over every use of the queue) |
| Queue.JobQueue.Requeue | internal/queue/queue.go:109-120 | LREM, then RPUSH, stopping at the first error: moved, kept in processing, or dropped |
| Queue.JobQueue.RecoverStalled | internal/queue/queue.go:124-144 | the loop over the snapshot, however its Requeue calls end, and the number of those that succeed |
| Resubmission.ResubmissionFindsFirst | internal/storage/store.go:231-246 | after a keyed request and any run, another request with that key finds the same job and adds no row; if the key was new the row still holds the first payload, wallet and operation |
| Resubmission.RowKeepsRequest | internal/storage/store.go:231-288 | no run drops a row or changes its project, wallet, operation, payload or key |
| Store.JobStore.CreateSigningJob | internal/storage/store.go:231-246 | inserts a pending row or returns the one with the same project and key; a NULL key never conflicts; keys stay unique |
| Store.JobStore.GetSigningJob | internal/storage/store.go:248-264 | finds the row only under its own project |
| Store.JobStore.MarkJobProcessing | internal/storage/store.go:266-270 | status processing and one more attempt |
| Store.JobStore.MarkJobCompleted | internal/storage/store.go:272-276 | status completed with the result |
| Store.JobStore.MarkJobFailed | internal/storage/store.go:278-282 | status failed with the error |
| Store.JobStore.MarkJobDead | internal/storage/store.go:284-288 | status dead with the error |
| PipelineSafety.EntryConservation | internal/queue/queue.go:56-144 | in every run of a pool, failing commands included, each entry's Enqueue count equals its copies in main, processing and the hands of requeues, plus those acknowledged and those lost between LREM and RPUSH by a crash or a failing RPUSH |
| PipelineSafety.NoJobIsLost | internal/worker/worker.go:104-159 | in every run whose outcome writes succeed and in which no crash and no failing RPUSH falls between LREM and RPUSH, an enqueued job that is not completed or dead has an entry that still leads to an attempt |
| PipelineSafety.CrashLosesIff | internal/queue/queue.go:109-120 | after a crash a job is still covered if and only if main or processing held an entry of it |
| PipelineSafety.RequeueLosesIff | internal/queue/queue.go:115-119 | after the second half of a requeue a job is still covered if and only if the RPUSH took effect or another copy leads to an attempt |
| PipelineSafety.OutcomeKeptIffWritten | internal/worker/worker.go:140-158 | when signing succeeds the job stays accounted for if and only if MarkJobCompleted was written |
| PipelineSafety.FailureKeptIff | internal/worker/worker.go:390-408 | when a job fails it stays accounted for if and only if the failure was written or there is budget left |
| PipelineSafety.SingleHolder | internal/worker/worker.go:59-102 | no two workers ever hold a job that was enqueued once, across crashes and recovery |
| PipelineSafety.EndsAreAbsorbing | internal/storage/store.go:266-288 | once a job enqueued once is completed or dead, its row (status, result, attempts) never changes again in any run |
| PipelineSafety.AttemptsNeverDecrease | internal/storage/store.go:266-288 | no run drops a row or lowers its attempts |
| PipelineBudget.SignStartsAreAttempts | internal/worker/worker.go:131-135 | in every run the sign starts, with the workers about to sign, are at most the attempts column, which is written first |
| PipelineBudget.RetryBudget | internal/worker/worker.go:390-408 | in every run that writes its outcomes and reads the project, whatever crashes or queue commands fail, a job enqueued once starts signing at most MaxRetries + 1 times plus once per attempt cut short by a crash or a lost reply |
| PipelineDrain.SmoothRunBound | internal/worker/worker.go:80-159 | every step without crash or error uses up a measure of the remaining work, so such runs are bounded |
| PipelineDrain.QueueDrains | internal/worker/worker.go:80-159 | after recovery a finite queue drains: at most eleven steps per round left, and where no step is left both lists are empty and every enqueued job is completed or dead |
| PipelineDrain.MissingWalletDiesIff | internal/worker/worker.go:119-129 | a round without a wallet uses no attempt and ends with the job dead if and only if its attempts had reached the budget; otherwise any number of rounds brings it back to the queue |
| Rounds.RefusedJobDies | internal/worker/worker.go:390-408 | a job refused every time fails R times, back in the queue each time, and dies at the next refusal with R + 1 attempts, its error and its dead letter; R is the project's retries, or three when the project is not read |
| Rounds.SignedJobCompletes | internal/worker/worker.go:131-158 | a signed job is completed with the result and one more attempt, and gone from the lists, in one round |
| Rounds.DroppedUnreadIff | internal/worker/worker.go:104-117 | an envelope is acknowledged without touching a row if and only if its id has no row, belongs to another project, or is completed or dead |
| Outcomes.RowsTellOutcomes | internal/storage/store.go:231-288 | in every run a completed row carries a result that signing gave for that job in the run, a failed or dead one an error, and a pending one is untried |
| Worker.ProcessJobIsARun | internal/worker/worker.go:104-159 | processJob, whatever its reads, signing, status writes, queue commands and project look-ups answer, is a run of the pipeline's actions with the same lists and table |
| Worker.RecoveryIsARun | internal/worker/worker.go:59-68 | recovery at start, however its Requeue calls end, is a run of the pipeline; it empties processing if none fails |
| Worker.JobWorker.HandleJobFailure | internal/worker/worker.go:390-408 | dead, dead-letter and acknowledge when the attempts read with the row reach the budget (3 when the project is missing or not read), else failed and requeue, with every command that may fail |
| Worker.JobWorker.ProcessJob | internal/worker/worker.go:104-159 | the lists and the table after one job, for each answer of its reads, writes and queue commands |
| Worker.JobWorker.Poll | internal/worker/worker.go:80-102 | one turn of the loop: dequeue, then process what was decoded |
| Submission.SubmissionIsARun | internal/api/handlers/handlers.go:274-320 | every submission is a run: nothing when refused, a lone Create when an existing job is returned or the push fails, and when it accepts also the Push of an envelope whose id names a row of that project |
| Submission.AcceptedIsNeverLost | internal/api/handlers/handlers.go:308-319 | in every clean run around an accepted submission, its job is completed or dead, or an entry that leads to an attempt is still there |
| Submission.KeysStayUnique | db/migrations/001_init.sql:66-101 | no run of the pipeline gives two rows of a project the same idempotency key |
| Submission.RetriesPileUp | internal/api/handlers/handlers.go:295-314 | n retries of a keyed request whose job still waits add no row and n entries |
| Submission.ReplayIsAnsweredIff | internal/api/handlers/handlers.go:295-320 | a keyed request whose row exists changes nothing and is answered with that row's id and status if and only if the row is completed or processing; otherwise one entry is pushed and nothing else |
| Submission.FirstSubmission | internal/api/handlers/handlers.go:274-320 | a first submission leaves a pending, untried row with the request's columns and one entry |
| Resubmission.RetryKeepsOnceIff | internal/api/handlers/handlers.go:295-320 | retrying leaves the job enqueued once if and only if it is completed or being processed |
| Resubmission.RetriesInProcessAreHarmless | internal/api/handlers/handlers.go:295-320 | however often a job in process is retried, and whatever the pool does in between, it has one holder and an ended row stays as it is |
| Submission.EndedStaysEnded | internal/worker/worker.go:104-117 | an ended row that no worker is about to write is never signed or changed again, however many entries it has |
| Resubmission.AcceptedCanRunIff | internal/api/handlers/handlers.go:301-319 | an accepted submission can be signed in some later run if and only if the row it found is not dead, or some worker on the job has yet to mark it processing or to call sign, or may still fail with budget left |
| Resubmission.DeadJobIsNeverRetried | internal/api/handlers/handlers.go:301-319 | resubmitting a dead job is accepted as pending, yet in no later run is it signed or its row changed |
| Resubmission.EndedStaysEndedIff | internal/worker/worker.go:104-159 | an ended row stays completed or dead in every run if and only if no worker has yet to mark it processing and none that may still fail has budget left |
| Resubmission.CompletedIsFinalIff | internal/worker/worker.go:131-149 | a completed row and its result are final if and only if no worker stands between reading the row and deciding its outcome |
| Resubmission.DeadStaysDeadIff | internal/worker/worker.go:131-149 | a dead row stays dead in every run if and only if no worker has yet to mark or sign it and none that is failing has budget left |
| Resubmission.CompletedIsReopened | internal/worker/worker.go:104-135 | for every request pushed twice there is a run from a fresh deployment that completes it, after which the second worker's mark puts it back to processing |
| Submission.Submitter.CreateAndEnqueue | internal/api/handlers/handlers.go:294-319 | row created or found; existing completed or processing jobs are returned at once; else the request's envelope is pushed |
| Submission.Submitter.SubmitJob | internal/api/handlers/handlers.go:274-320 | the missing wallet and the empty payload are refused before anything is written; an empty key is NULL |
| Amount.ParseIsExactFloor | internal/stablecoin/abi.go:62-115 | parsing succeeds exactly for digits with at most one point whose value times 10^decimals is at least one, and returns the floor of that, never more than was written |
| Amount.ParseAmount | internal/stablecoin/abi.go:62-115 | the loops, padding, truncation and trimming compute that floor, with the errors in the code's order |
| Amount.RoundTrip | internal/stablecoin/abi.go:62-137 | parsing a printed positive amount gives it back, for all decimals |
| Amount.FormatIsCanonicalForm | internal/stablecoin/abi.go:119-137 | the printed form is the one string without redundant zeros that parses to the amount |
| Amount.FormatInjective | internal/stablecoin/abi.go:119-137 | different positive amounts print differently |
| Calldata.EncodeSucceedsIff | internal/stablecoin/abi.go:18-44 | encoding succeeds exactly for 40-character addresses and amounts from 1 to 2^256 - 1, and the too-large error is exact |
| Calldata.CalldataRoundTrip | internal/stablecoin/abi.go:18-44 | the calldata is 68 bytes and an independent decoder reads back the lowercased address and the amount |
| Calldata.CalldataInjective | internal/stablecoin/abi.go:18-44 | two transfers have the same calldata if and only if amounts and normalised addresses agree |
| Ledger.LedgerBalances | internal/credits/credits.go:132-328 | over every sequence of calls, failed ones included, each balance is the sum of its rows, each balance_after the running sum, and nobody spends more than they received |
| Ledger.DebitPostsIff | internal/credits/credits.go:132-236 | a debit posts if and only if its statements succeed, the organisation exists, the operation is active with a positive cost, and the balance covers it, and then takes exactly the cost with one row; each other answer has its exact condition and changes nothing |
| Ledger.CreditPostsIff | internal/credits/credits.go:252-328 | a credit posts if and only if its statements succeed, the organisation exists, the amount is positive with one of the three reasons and fits; each other answer has its exact condition and changes nothing |
| Ledger.CanPayIff | internal/credits/credits.go:184-236 | after any calls an organisation can pay if and only if what it received less what it spent covers the cost |
| Ledger.Manager.CreateOrganization | internal/storage/cloud_store.go:79-120 | the organisation exists with a zero balance unless it had one |
| Ledger.Manager.GetBalance | internal/credits/credits.go:332-345 | a missing row reads as zero |
| Ledger.Manager.Debit | internal/credits/credits.go:132-236 | unknown, free, insufficient, failed or posted, with the balance and ledger of each case |
| Ledger.Manager.Credit | internal/credits/credits.go:252-328 | bad amounts and reasons are refused, an overflow is rolled back, otherwise balance and ledger grow by the amount |
| LedgerTx.Serialisable | internal/credits/credits.go:132-328 | any interleaving of transactions equals running those that ended one by one, with the same answers, and per organisation in the order of the row lock |
| LedgerTx.BooksBalanceAlways | internal/credits/credits.go:132-328 | the committed books balance at every moment of every interleaving |
| LedgerTx.NoDeadlock | internal/credits/credits.go:156-183 | while a transaction on an existing organisation is unfinished, some transaction can move without failing |
| Payments.MetadataRoundTrip | internal/api/handlers/payment_handler.go:447-455 | what formatInt64 prints parseMetadataInt64 reads back, for every int64 |
| Payments.CreditedOnce | internal/api/handlers/payment_handler.go:195-317 | when credits are answered and marks succeed, for every order and repetition of events, mixed with other payments and ledger use, the organisation gets the metadata's total exactly once if some delivery credits and never otherwise, and the row then stays succeeded |
| Payments.PurchaseToLedger | internal/api/handlers/payment_handler.go:83-289 | under the same conditions a recorded purchase is credited 1500 per whole dollar, once, to its own organisation |
| Payments.CreditsCounted | internal/api/handlers/payment_handler.go:195-289 | over any history of events, with credits that fail or go unanswered and marks that fail, the payment gets one ledger row of the metadata's total for each delivery that would pay, up to and including the first whose mark reaches a row |
| Payments.PurchaseIff | internal/api/handlers/payment_handler.go:83-157 | a purchase is made if and only if it is of 1000 cents or more and Stripe accepts it; intent and row carry both parts of the quote |
| Payments.PaidRowIsQuote | internal/api/handlers/payment_handler.go:83-289 | once paid, the row shows the amount, 1000 base and 500 bonus credits per whole dollar, succeeded and credited, forever |
| Payments.UnpaidRowShowsLast | internal/storage/payments.go:112-124 | until then it shows the last stored failed or canceled event, and nothing else changes |
| Payments.ScanReadsPrefix | internal/api/handlers/payment_handler.go:451-455 | a number is read up to the first non-digit, after spaces, whatever follows |
| Payments.UnrecordedPaysEveryTime | internal/storage/payments.go:66-108 | n deliveries of a payment without a row write n credits |
| Payments.PaymentHandler.CreatePaymentIntent | internal/api/handlers/payment_handler.go:83-157 | below 1000 cents, or when Stripe fails, nothing; else the quoted intent, and its pending row if the INSERT succeeds |
| Payments.PaymentHandler.MarkPaymentCredited | internal/storage/payments.go:66-108 | an existing row becomes succeeded and credited if its constraints hold; a missing one stays missing |
| Payments.PaymentHandler.UpdateStripePaymentStatus | internal/storage/payments.go:112-124 | changes the status of uncredited payments only |
| Payments.PaymentHandler.HandlePaymentSucceeded | internal/api/handlers/payment_handler.go:195-289 | checks, credit, then mark; a 500 never marks the payment, and has credited it only if the commit went unanswered |
| Payments.PaymentHandler.HandlePaymentFailed | internal/api/handlers/payment_handler.go:291-303 | a failed event sets an uncredited payment to failed |
| Payments.PaymentHandler.HandlePaymentCanceled | internal/api/handlers/payment_handler.go:305-317 | a canceled event sets an uncredited payment to canceled |
| Grants.AtMostOneGrant | internal/cron/cron.go:72-139 | over any number of serial runs, each failing or stopping anywhere, an organisation has at most one free grant per period, and once marked whether it has one never changes |
| Grants.CleanRunGrantsAll | internal/cron/cron.go:72-139 | a run without errors gives every unmarked, undeleted organisation exactly one grant if the amount is positive and none otherwise, and reports so |
| Grants.MarkedGetsGrantIff | internal/cron/cron.go:72-139 | an unmarked organisation that a run marks has one grant for the period, in every later history, if and only if nothing failed or died after the mark, the amount is positive and its balance has room; otherwise it has none |
| Grants.GrantsPayTheAmount | internal/cron/cron.go:116-139 | over every history each grant for a period is exactly of the configured amount |
| Grants.UnmarkedInOrder | internal/credits/credits.go:399-425 | the list keeps the order of creation |
| Grants.Runner.ListOrgsForFreeGrant | internal/credits/credits.go:399-425 | the undeleted organisations without a mark for the period, oldest first |
| Grants.Runner.GrantToOrg | internal/cron/cron.go:116-139 | check, mark, credit, stopping at the first failure |
| Grants.Runner.RunFreeTierGrantNow | internal/cron/cron.go:72-114 | the loop over the list, with its counters and its interruptions |
| Limiter.Refines | internal/ratelimit/limiter.go:23-51 | after every call the set holds exactly the requests of the last second, and every answer, whatever the two-second expiry removed, is that of a limiter that keeps the whole history |
| Limiter.RateBound | internal/ratelimit/limiter.go:23-51 | every one-second window of scores in an unbounded history has at most limit allowed requests, denied ones being recorded too |
| Limiter.NanosecondBound | internal/ratelimit/limiter.go:24-36 | in nanoseconds the bound holds for every interval of a given length if and only if the length is at most 999 999 000 |
| Limiter.RepeatedClockBound | internal/ratelimit/limiter.go:23-51 | when requests may share a nanosecond, the rate bound holds for every history if and only if the limit is at most one |
| Limiter.RateLimiter.Allow | internal/ratelimit/limiter.go:23-51 | one project's key is pruned, counted and extended, other projects' keys are not touched, and a Redis failure lets the request through |
| Registry.ParseToken | internal/stablecoin/registry.go:251-265 | succeeds exactly when the trimmed, lowercased token is 2 to 10 lowercase letters or digits, and returns it |
| Registry.KeysDiffer | internal/stablecoin/registry.go:220-222 | different look-ups of normalised tokens use different cache keys, none of them the list's |
| Registry.CacheIsInvisible | internal/stablecoin/registry.go:75-244 | in every run of look-ups, lists, upserts, disables and evictions, answers are current: an enabled matching row, none exactly when there is none, and the list is the enabled set |
| Registry.AnswersAreStored | internal/stablecoin/registry.go:75-179 | in every run an answer's contract, decimals and symbol are those of the enabled row with its id, which is of the token asked for; the list has every enabled row |
| Registry.LookupsAgreeIff | internal/stablecoin/registry.go:75-143 | without upserts and disables, look-ups of one question agree in every run of look-ups, lists and evictions if and only if at most one enabled row matches |
| Registry.DecimalsAgreeIff | internal/stablecoin/registry.go:75-143 | they agree on the decimals if and only if all enabled matches have the same |
| Registry.RunKeepsTable | db/migrations/001_init.sql:212-224 | no run breaks the unique key, NULL chain ids being distinct, or stores an empty chain id |
| Registry.UpsertIsOnlyMatchIff | internal/storage/stablecoin.go:89-115 | the upserted row is the only enabled match of its look-up if and only if it has a chain id or none matched before |
| Registry.UpsertAnswersIff | internal/stablecoin/registry.go:75-189 | whatever was cached, the next look-up, EVM or Solana, must answer exactly what was upserted if and only if the row has a chain id or none matched before |
| Registry.UpsertedIsAnswered | internal/storage/stablecoin.go:89-115 | until the next write every look-up of a token upserted with a chain id answers the contract, decimals and symbol that were upserted |
| Registry.DisableHidesIff | internal/stablecoin/registry.go:192-216 | disabling an enabled row hides its token from the next look-up if and only if it was the only match |
| Registry.DisableThenResolve | internal/stablecoin/registry.go:192-216 | whatever was cached, once an EVM row is disabled its look-up finds nothing |
| Registry.TokenRegistry.GetStablecoinToken | internal/storage/stablecoin.go:27-49 | some enabled row that matches the lowercased token, or none if there is none |
| Registry.TokenRegistry.ResolveEVM | internal/stablecoin/registry.go:75-107 | the cached entry if there is one, else a matching row, which is then cached |
| Registry.TokenRegistry.ResolveSolana | internal/stablecoin/registry.go:111-143 | the same under the Solana key |
| Registry.TokenRegistry.ListAll | internal/stablecoin/registry.go:147-179 | the cached list if there is one, else the enabled rows, which are then cached |
| Registry.TokenRegistry.UpsertToken | internal/stablecoin/registry.go:182-189 | the normalised row replaces the conflicting one or is added, enabled, and both keys are deleted |
| Registry.TokenRegistry.DisableToken | internal/stablecoin/registry.go:192-216 | the row is disabled; its keys are deleted if it was enabled |
| RegistryTimed.StaleHitIsBounded | internal/stablecoin/registry.go:75-179 | when reads and writes interleave, a hit of a look-up or of the list that a later version of the table no longer answers is younger than that version plus the TTL plus the filling reader's gap between read and cache write |
| RegistryTimed.BoundIsTight | internal/stablecoin/registry.go:75-179 | for every look-up, list, answer and gap there is a run that reaches the bound |
| Nonce.EpochIsARange | internal/nonce/manager.go:32-51 | between two syncs or expiries, also from a missing key, whatever the workers interleave, the nonces handed out are base, base + 1, and so on, one for each Next |
| Nonce.NoncesDistinct | internal/nonce/manager.go:32-51 | they are pairwise distinct and fill the range without gap |
| Nonce.PeekIsLargest | internal/nonce/manager.go:70-88 | after at least one Next, Peek answers the largest nonce handed out and changes nothing |
| Nonce.FirstNonceIffNoOffset | internal/nonce/manager.go:43-66 | a sync to p makes the next nonce p if and only if the seed offset is zero |
| Nonce.CodeSkipsPending | internal/nonce/manager.go:43-66 | after a sync to p the workers get p + 1, p + 2, and so on |
| Nonce.NextFailsIff | internal/nonce/manager.go:32-66 | Next fails, changing nothing, exactly from the largest int64 on; so which pending nonces make the first Next fail |
| Nonce.EpochsOverlapIff | internal/worker/worker.go:371-388 | two epochs hand out a common nonce exactly when their ranges overlap |
| Nonce.RacingEnsureRepeats | internal/worker/worker.go:371-388 | two workers that follow ensureNonce, each syncing because its Peek answered zero, get the same nonce |
| Nonce.NonceManager.Next | internal/nonce/manager.go:32-51 | increments this address's counter, returns the value before, fails at the int64 limit |
| Nonce.NonceManager.SyncFromChain | internal/nonce/manager.go:55-66 | sets this address's counter to the pending nonce plus one |
| Nonce.NonceManager.Peek | internal/nonce/manager.go:70-88 | the counter less one, or zero |
| MembershipRuns.SoleOwner | internal/api/handlers/cloud_handlers.go:80-369 | in every interleaving an organisation has at most one active owner, its creator, and once onboarded it has that owner unless the creator's account was deleted |
| MembershipRuns.OwnerStaysUntilDeleted | internal/storage/cloud_store.go:52-59 | as long as the creator's account is not deleted, no run removes the owner |
| MembershipRuns.InviteAdmitsOne | internal/api/handlers/cloud_handlers.go:390-530 | each invite admits at most one user, the one recorded as having accepted it, and never as owner |
| MembershipRuns.OnlyTheCreatorDeletes | cmd/server/main.go:276-290 | in every interleaving an organisation is deleted only after its creator, then its owner, asked for it |
| SecondOrganisation.OnboardsAgainIff | internal/api/handlers/cloud_handlers.go:96-131 | from any reachable state some run without deletion of the account makes the user create another organisation if and only if a request of the user has passed the check, or each undeleted organisation that has the user as a member has an admin, an admin invite that can be accepted, or a request in flight that removes the user, deletes it, invites or adds an admin, or promotes somebody who is or can become a member |
| SecondOrganisation.AnotherOrganisationIff | internal/api/handlers/cloud_handlers.go:96-131 | without deletion of organisations the user owns either, if and only if a request has passed the check, or the user in addition owns no undeleted one |
| MembershipRuns.OnboardingTwice | internal/api/handlers/cloud_handlers.go:96-131 | two onboarding requests that both find no organisation leave the user owning two |
| MembershipRuns.OnboardingIsARun | internal/api/handlers/cloud_handlers.go:80-145 | an uninterrupted onboarding, whatever it answers, is a run of its statements |
| MembershipRuns.UpdateIsARun | internal/api/handlers/cloud_handlers.go:287-330 | so is a role change, from the check of the caller's role on |
| MembershipRuns.RemoveIsARun | internal/api/handlers/cloud_handlers.go:334-369 | so is a removal, with the owner count when the target is an owner |
| MembershipRuns.InviteIsARun | internal/api/handlers/cloud_handlers.go:390-433 | so is creating an invite |
| MembershipRuns.RevokeIsARun | internal/api/handlers/cloud_handlers.go:516-530 | so is revoking one |
| MembershipRuns.DeleteIsARun | internal/api/handlers/cloud_handlers.go:240-249 | so is deleting the organisation |
| MembershipRuns.AcceptIsARun | internal/api/handlers/cloud_handlers.go:457-512 | so is accepting an invite |
| Membership.CloudHandler.AddOrgMember | internal/storage/cloud_store.go:286-300 | the member is active with the role, whatever the row was |
| Membership.CloudHandler.UpdateOrgMemberRole | internal/storage/cloud_store.go:362-377 | changes the role of an active member |
| Membership.CloudHandler.RemoveOrgMember | internal/storage/cloud_store.go:379-393 | deactivates an active member |
| Membership.CloudHandler.DeleteClerkUser | internal/storage/cloud_store.go:52-59 | deactivates every membership of the user |
| Membership.CloudHandler.Onboarding | internal/api/handlers/cloud_handlers.go:80-145 | a user without an active membership of an undeleted organisation gets one and owns it |
| Membership.CloudHandler.OrgAuthz | internal/api/middleware/auth.go:160-198 | lets a caller through who is an active member of at least the role asked for, of a deleted organisation too |
| Membership.CloudHandler.DeleteOrganization | internal/api/handlers/cloud_handlers.go:240-249 | the owner sets an undeleted organisation deleted; nothing else changes |
| Membership.CloudHandler.UpdateMember | internal/api/handlers/cloud_handlers.go:287-330 | only for admins; owner is neither given nor taken away; missing members are not found |
| Membership.CloudHandler.RemoveMember | internal/api/handlers/cloud_handlers.go:334-369 | only for admins; the last owner cannot be removed |
| Membership.CloudHandler.CreateInvite | internal/api/handlers/cloud_handlers.go:390-433 | only for admins; an open invite for any role but owner |
| Membership.CloudHandler.AcceptInvite | internal/api/handlers/cloud_handlers.go:457-512 | not found, conflict, gone, or accepted and the user a member with the invite's role |
| Membership.CloudHandler.RevokeInvite | internal/api/handlers/cloud_handlers.go:516-530 | only for admins; revokes an invite of the organisation that is not revoked yet |
| Transfer.EvmAddressEncodes | internal/stablecoin/service.go:223-238 | a recipient that passes the EVM check is one the calldata encoder accepts |
| Transfer.EvmAmountIffDecimals | internal/stablecoin/service.go:145-219 | the checked amount is positive and at most the fetched balance; the payload goes to the requested address and moves the checked amount if and only if the decimals did not change between check and payload |
| Transfer.EvmMovesChecked | internal/stablecoin/service.go:82-219 | with look-ups from a registry run without upserts and disables, whatever the cache drops, an EVM transfer moves exactly the checked amount |
| Transfer.UpsertedTokenIsMoved | internal/stablecoin/service.go:82-376 | until the next registry write, a transfer of a token upserted with its chain id goes to the contract that was upserted and moves what the upserted decimals make of the amount |
| Transfer.ChecksDecide | internal/stablecoin/service.go:82-407 | a transfer is accepted if and only if each of its twenty-one checks, stated on its own, passes; otherwise the first that fails answers |
| Transfer.EvmPayloadCarries | internal/stablecoin/service.go:332-376 | operation, contract, zero value, gas limit, echoed symbol, recipient and amount; the chain id is n if the request's prints n |
| Transfer.EvmRecipientIff | internal/stablecoin/service.go:24 | the EVM recipient pattern, character by character |
| Transfer.SolanaAmountIff | internal/stablecoin/service.go:378-407 | the uint64 in the payload is the checked amount if and only if the decimals did not change, or the new amount exceeds 64 bits and wraps round to it |
| Transfer.WrapCanCoincide | internal/stablecoin/service.go:378-407 | an amount for which one more decimal does wrap round to the checked amount |
| Transfer.SolanaMovesChecked | internal/stablecoin/service.go:82-219 | a Solana transfer moves the checked amount in such a run if all enabled rows of its token have the same decimals |
| Transfer.MoreDecimalsMoveMore | internal/stablecoin/service.go:332-342 | with more decimals at the payload, more is moved than was checked |
| Transfer.SameAmountIffSameDecimals | internal/stablecoin/abi.go:62-115 | one amount string parses to the same amount under two decimals only if they are equal |
| Transfer.StablecoinService.BuildEVMPayload | internal/stablecoin/service.go:332-376 | parse, encode, chain id, then the payload with zero value to the token contract |
| Transfer.StablecoinService.BuildSolanaPayload | internal/stablecoin/service.go:378-407 | parse, then the low 64 bits of the amount and the mint |
| Transfer.StablecoinService.Prepare | internal/stablecoin/service.go:82-197 | the first check that fails, in the code's order, or the payload |
| Transfer.StablecoinService.Transfer | internal/stablecoin/service.go:82-219 | a rejected transfer changes nothing; otherwise the job is created and enqueued as for any submission |
| Submission.RetryHealsFailedPush | internal/api/handlers/handlers.go:308-317 | supporting fact: when the push fails the row stays without an entry, and the same keyed request pushes it |
| Ledger.PostsIff | internal/credits/credits.go:152-232 | supporting fact: a transaction posts exactly when the new balance is between 0 and the int64 maximum, and touches only its own organisation |
| Ledger.RefundUndoesDebit | internal/credits/credits.go:132-328 | supporting fact: crediting an operation's cost back restores every balance, with two ledger rows that cancel out (the refund reason has no caller yet) |
| Payments.QuoteIsLinear | internal/api/handlers/payment_handler.go:52-69 | supporting fact: for every accepted amount, packages and custom alike, the quote is 1500 per whole dollar if and only if that fits an int64 |
| Payments.RedeliveryPaysAgainIff | internal/api/handlers/payment_handler.go:262-279 | supporting fact: a second delivery pays again exactly when the first one's marking did not reach a row |
| Registry.FailedDeleteIsStaleIff | internal/stablecoin/registry.go:236-244 | supporting fact: without the cache delete the entry is stale exactly when the upsert changed what it shows |
| Transfer.JobCarriesPayloadIff | internal/stablecoin/service.go:199-218 | supporting fact: the enqueued job's row holds the payload just built exactly when every older row with that idempotency key already held it |
| Queue.DequeueConserves | internal/queue/queue.go:67-86 | supporting fact: a dequeue moves one entry and drops none, malformed ones included |
| Submission.RefusedIff | internal/api/handlers/handlers.go:274-300 | supporting fact: what a submission is refused for, each exactly when |
| Ledger.FoundedSeeds | internal/storage/cloud_store.go:79-120 | supporting fact: founding seeds a zero balance and touches no other |
| Payments.MarkedIff | internal/storage/payments.go:66-108 | supporting fact: when a mark reaches the row, and what it writes |
| Amount.ParseErrorsIff | internal/stablecoin/abi.go:62-115 | supporting fact: which error the parser answers |
| Calldata.EncodeErrorsIff | internal/stablecoin/abi.go:18-44 | supporting fact: which error the encoder answers |
| Limiter.IdleKeyIsGoneIff | internal/ratelimit/limiter.go:23-51 | supporting fact: a key is gone two seconds after its last call and not before |
| Registry.LowerToLetterIff | internal/stablecoin/registry.go:251-265 | supporting fact: the characters that lowercasing makes a letter, two of them beyond ASCII |
| Registry.WritesOneRow | internal/storage/stablecoin.go:89-132 | supporting fact: an operation writes at most its own row: the given columns, or the flag |
| Transfer.SolanaPayloadCarries | internal/stablecoin/service.go:378-407 | supporting fact: operation, mint, recipient, symbol, amount and fee payer of a Solana payload |
| Membership.OnboardedIff | internal/api/handlers/cloud_handlers.go:80-145 | supporting fact: when onboarding finds an organisation, and what it writes otherwise |
| Membership.DeletedIff | internal/api/handlers/cloud_handlers.go:240-249 | supporting fact: when an organisation is deleted |
| Membership.UpdatedIff | internal/api/handlers/cloud_handlers.go:287-330 | supporting fact: when a role is changed, and to what |
| Membership.RemovedIff | internal/api/handlers/cloud_handlers.go:334-369 | supporting fact: when a member is removed |
| Membership.InvitedIff | internal/api/handlers/cloud_handlers.go:390-433 | supporting fact: when an invite is made, and with which role |
| Membership.RevokedIff | internal/api/handlers/cloud_handlers.go:516-530 | supporting fact: when an invite is revoked |
| Membership.AcceptedIff | internal/api/handlers/cloud_handlers.go:457-512 | supporting fact: when an invite is accepted, and the member it makes |

## Left out

- Cryptography: key management, signing, encryption and wiping. Signing succeeds with some result or is refused.
- JSON-RPC, HTTP, Stripe, Clerk and webhook delivery. What they answer is an input.
- `settleAndDeliver`, audit rows, usage rollups, and the webhook columns: they do not feed back into the pipeline.
- Several pools recovering at once, several processes granting at once, and two webhook deliveries of one payment at the
  same time: the code's guards do not cover these, and the model assumes them away.
- Store.JobStore.CreateSigningJob: the gasless flag and the timestamps, which nothing in the pipeline reads.
- Worker.JobWorker.Poll: one turn, because the loop of the code ends only when the process does.
- DeadLetters.DeadJobsAreBuried: the texts of failure reasons, for which one constant stands, and the time in a dead letter.
- Failures of `RecoverStalled`'s own read of the list, and of the dead-letter push of a malformed entry.
- Submission.Submitter.CreateAndEnqueue: a create whose reply is lost leaves a pending row without an entry, as a failed push does; `createOk` stands for one that had no effect.
- Limiter.RateLimiter.Allow: the five commands are one step, as the pipeline is not a transaction; a failed pipeline has
  no effect; scores are exact integers, which float64 is below 2^53.
- Amount.ParseAmount: decimals are not negative, and a nil amount to print is not modelled.
- Calldata.CalldataRoundTrip: non-ASCII letters of a recipient, which lowercasing could change; the recipient check admits none.
- Registry.TokenRegistry.ListAll: the order of the list, which the database sorts; and errors of the table reads.
- RegistryTimed.StaleHitIsBounded: time is in milliseconds; any unit would do.
- Nonce.NonceManager.SyncFromChain: the 24-hour expiry of the key is the action Expire, which ends an epoch.
- Payments.PaymentHandler.HandlePaymentSucceeded: `MarkOrgPurchased`, the expiry date of credits, and events of other types.
- Grants.Runner.RunFreeTierGrantNow: the check that the tables exist, and a failing list, which ends the run at once.
- Membership.CloudHandler.Onboarding: names, slugs, billing e-mails and the project row.
- Membership.CloudHandler.CreateInvite: the format checks of e-mail addresses and user ids.
- SecondOrganisation.OnboardsAgainIff: signing in is not modelled; a user whose account was deleted can still send requests,
  as the handlers do not look the account up.
- Transfer.EvmPayloadCarries: the token and the chain text that the payload's metadata repeat besides.
- Transfer.StablecoinService.Transfer: balances arrive as numbers, so malformed replies of a node are not modelled;
  `json.Marshal` is a parameter.
- API keys and their cache, wallet limits, rate limits per project, schema
  migration, configuration and routes: they would add only simple members.
