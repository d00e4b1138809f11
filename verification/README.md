# Credits, render jobs and their neighbours, proved

Dream Wheels sells renders for credits. This project models the credit economy of its backend and the
render job that spends it, and proves what holds over every run; it also models the smaller state
machines and exact computations around them. `dafny verify dfyconfig.toml` checks everything.

## How it is built

**Tables and operations.** `Tables` holds the rows that carry credits. `CreditRules`, `PaymentRules`,
`MergeRules` and `RenderRules` say what each database transaction does to them, as functions of the
tables before it; `Database` and the `...Service` modules hold the same operations as methods over
mutable tables, with the loops of the source, each proved to compute its function. A transaction is one
atomic step. Its database clock, the application's wall clock and the row orders the queries leave open
are parameters (`Context`, `StarterView`), so the theorems hold for every choice of them; an
`expires_at` of NULL is `None`. Configuration constants are arbitrary positive numbers.

**Invariants.** `CreditInvariant` has the facts behind the non-local lines: for each package what remains
plus what live jobs took never exceeds the grant, and a reserved job took exactly its cost. `Conservation`
keeps books of every granted credit, `Billing` of the ledger rows of each job, `Trials` of starter grants,
`PaymentFacts` of purchase packages and their ledger rows. `Economy` proves that every transaction keeps all of them together.

**Answers.** `CreditAnswers`, `PaymentAnswers`, `IdentityAnswers`, `VehicleAnswers` and `WorkerRuns` say when each
operation gives which answer and which rows it leaves, in terms of the rows and the request alone, not of the
functions an operation is built from.

**Runs.** `World` is the system as a state machine: any number of workers, each with its place between two
awaits, arbitrary and replayed queue messages, crashes, late outputs, publish compensation, sign-ins,
balance requests, payment callbacks, timeout scans and merges, in any order and with clocks that need not be
monotone; a top-up request is a balance request and then the new payment. `Histories` states what all runs
have in common. A run starts from any state that satisfies the invariant: the empty one does
(`World.InitialHolds`), and what a cutover leaves does when the old jobs and paid payments agree with their
ledger rows. `Lifetimes` proves over runs that credits are lost only after their package has ended, and that those
of a cutover never are. Three histories have events of their own: `FifoOptimality` (spending order),
`IdentityFacts` (links and merges) and `VehicleFacts` (vehicle endpoints that read a row long before they
write it).

**Neighbours.** `Pricing` (28-digit decimal division against exact division), `Cutover` (the one-off move of
old balances), `IdentityRules`, `FitmentQueue`, `VehicleRules`, `ReturnRoute` over `FormUrl` and `Utf8`
(application/x-www-form-urlencoded, section 5 of the WHATWG URL Standard; percent-encoding, section 2.1 of
RFC 3986), `RateLimit`.

## What the proofs turned up

- `get_balance` asked twice at one instant leaves balance, packages, accounts and jobs alone the second
  time, but may add one starter-expiration audit row (`CreditInvariant.GetBalanceIdempotent`). It does so in a
  run of four steps from a new deployment: a trial user is merged into a user without a cached account row,
  whose first call creates that row with balance 0 and fills it from the packages, and whose second call
  takes this balance for starter credits to expire, although they can still be spent
  (`FailingRuns.SecondCallMayAudit`).
- A sign-in (the bootstrap endpoint, the bot's /start) runs `ensure_credit_account_state` alone. It is the one
  credit transaction that does not reconcile, so the balance it caches and shows is right exactly when what was
  cached before agrees with the packages (`Histories.SignInRefreshesIff`): credits that ended since are
  still shown (`Histories.LapsedCreditsStay`), and the survivor of a merge with a trial user is shown 0
  although he has the starter credits (`FailingRuns.SignInMayShowNothing`). Every other credit step puts
  it right whatever was cached, but for clocks a package lifetime apart (`Histories.CreditStepsRefresh`).
- The configured cost of a job is never used: the column `jobs.credit_cost` has a positive default, which
  the reservation prefers (`Histories.CreateDecides`).
- A merge while a render of the merged user is running strands it: the job moves to the survivor, but its worker
  goes on under the old user, so that its output and its failure both count as late
  (`WorkerRuns.MergeStrandsRender`). The job stays in process with its credits held. Without such merges and
  without dying workers no job is left behind (`WorkerRuns.NoJobIsAbandoned`).
- Linking a Telegram identity adopts a legacy owner without looking at the identities he already holds. No
  account holds two Telegram subjects as long as every stored Telegram number has its identity row, which
  migration 0031 establishes and every operation keeps; without that it fails exactly when the adopted
  owner holds another one (`IdentityFacts.LinkKeepsSingleIff`, `IdentityFacts.LegacyOwnerMayHoldTwo`).
- Linking does not look at whether the current account has been merged away since its credential was looked
  up. A free identity linked that late ends at a merged account; in every history this is the only way it
  can (`IdentityFacts.OwnersLiveIff`).
- Splitting a top-up may pay, because each priced purchase gives at least one credit. For every tier table
  whose price does not rise with the threshold, splitting never yields more exactly when the lowest threshold
  buys a whole credit at the price of twice its amount (`Pricing.SuperadditiveIff`). Not every threshold
  need buy one at its own price (`Pricing.NotEveryTierMustBuyOne`); the repository's own table is safe.
- The overview proposes a check exactly when the check accepts it, provided that the mapping names make,
  model and region (`VehicleFacts.GuardsAgreeIff`). One lookup answered with an empty region slug breaks
  this: the proposed check is refused (`VehicleFacts.EmptySlugsBreakAgreement`).
- The docstring of the rate limiter promises a sliding window, its text a fixed one. The code is the
  fixed window. In one window length it admits up to twice the limit less one, and no more
  (`RateLimit.TwiceTheLimit`, `RateLimit.BoundIsMet`).

## Model

| member | source | states |
|---|---|---|
| CreditsService.CreateCreditPackage | src/credits_service.py:32-56 | Appends one package, whole, unless its idempotency key exists; no other table changes. |
| CreditsService.ExpireCreditPackages | src/credits_service.py:59-112 | Empties exactly the due packages of the user, writes one expiration row each, lowers the cached balance by their sum but not below zero, and returns that sum; without due credits nothing changes. |
| CreditAnswers.ExpireAnswers | src/credits_service.py:59-112 | A package is emptied exactly when it is the user's and its end is not after the instant, and one row records what was left in it. |
| CreditAnswers.ExpireLowers | src/credits_service.py:105-112 | The cached balance falls by exactly what was left in the ended packages, not below zero, and no other account changes. |
| StarterReplay.CalculateRemainingStarterCredits | src/credits_service.py:282-314 | The loop over the ledger computes the replay of the rows after the first granting starter row. |
| StarterReplay.RemainingWithinBounds | src/credits_service.py:282-314 | For any ledger, with debits D and refunds R after the starter row, the replay lies between max(0, granted - D) and min(granted, max(0, granted - D) + R). |
| StarterReplay.ExactWithoutRefunds | src/credits_service.py:282-314 | Without refunds after the starter row the replay is exactly max(0, granted - D). |
| StarterReplay.ExactWithoutClipping | src/credits_service.py:282-314 | As long as the running sum stays between nothing and the grant, the replay is exactly granted - debits + refunds. |
| StarterReplay.AfterStarterIs | src/credits_service.py:282-314 | The rows replayed are exactly those after the first row that grants the starter something. |
| CreditsService.ExpireStarterGrantIfDue | src/credits_service.py:524-588 | Takes between nothing and the whole cached balance off it, never more; only the user's balance and one ledger row can change. |
| CreditsService.EnsureCreditAccountState | src/credits_service.py:591-698 | Creates the account, expires the old starter grant, and grants the starter package exactly when neither a trial date nor a starter row speaks against it. |
| CreditAnswers.GrantAnswers | src/credits_service.py:591-698 | Trial date, ledger row and package of the starter grant, exactly for a user without a trial date and without a starter row. |
| CreditAnswers.SignInTakes | src/credits_service.py:524-588 | Starter credits are taken off the cached balance only when the earliest starter row is older than the lifetime and no cutover package or expiration row speaks against it; then between min(cached, max(0, granted - D)) and min(cached, min(granted, max(0, granted - D) + R)), exactly the former without refunds and exactly min(cached, granted - D + R) when nothing is clipped. |
| CreditAnswers.SignInRecords | src/credits_service.py:558-588 | What is taken is filed as one expiration row of that amount; without it only a grant writes ledger rows. |
| CreditsService.ReconcileCreditAccountBalance | src/credits_service.py:714-747 | The cached balance becomes the sum of the packages active now, and that sum is returned. |
| CreditsService.GetUserBalance | src/credits_service.py:707-711 | Returns the active package sum and leaves it cached, whatever was cached before. |
| CreditAnswers.BalanceAnswers | src/credits_service.py:707-747 | After a balance request every package is as the sign-in left it, or emptied if it is the user's and has ended, and the balance is what is active. |
| CreditFacts.GetBalanceShape | src/credits_service.py:59-112 | Balance keeping writes only the user's own account, zeroes only expired packages, adds at most the starter package and only new upkeep rows to the ledger, and ends with cached balance equal to active sum. |
| CreditFacts.EmptyingIsInvisible | src/credits_service.py:59-112 | Expiring packages changes nobody's usable credits now or later, and no other user's at any time. |
| CreditInvariant.GetBalanceIdempotent | src/credits_service.py:707-747 | A second call at the same instant changes nothing but at most one starter audit row, and nothing at all exactly when the starter-expiry path finds nothing to take off. |
| FailingRuns.SecondCallMayAudit | src/credits_service.py:524-588 | A run of a new deployment, every query answered correctly, that ends with the same balance request twice, the second of which writes. |
| CreditInvariant.NotGrantedTwice | src/credits_service.py:591-698 | After one call the user is past the starter grant. |
| CreditInvariant.EnsureBalances | src/credits_service.py:591-698 | What a sign-in does to the cached balance and, independently, to the credits any user can spend at any instant. |
| CreditOutcomes.BalanceGivesOnlyTheStarter | src/credits_service.py:591-747 | Balance keeping changes nobody's usable credits at any instant from now on, except that a first-time user has the starter credits until the starter package ends. |
| CreditOutcomes.SecondTimeIsFree | src/credits_service.py:887-945 | Finalizing or refunding a finished job again takes nothing, gives nothing and leaves job and allocations alone. |
| CreditsService.SpendPackages | src/credits_service.py:799-817 | The spending loop over the queried rows equals the fold that decrements packages and upserts allocations. |
| CreditsService.ReserveJobCredit | src/credits_service.py:756-871 | Missing job, refunded job, already reserved or finalized job, too few credits, unpaid rest and success, in the source's order; on success the whole new state. |
| DrawFacts.DrawMovesCredits | src/credits_service.py:799-817 | What leaves a package is what the job's allocation on it gains, all of it together is what was paid, and no other job's allocation moves. |
| DrawFacts.DrawPaysInFull | src/credits_service.py:784-819 | Over any earliest-expiry-first order the loop pays every cost the balance covers and ends at zero, leaving at every later instant x exactly min(active at x, active now - cost). |
| DrawFacts.DrawSparesOthers | src/credits_service.py:791-817 | Nobody else's credits move, now or later. |
| CreditInvariant.ReserveDecides | src/credits_service.py:784-831 | An uncharged job is refused exactly when the usable credits do not cover the effective cost; "out of sync" never happens; on success the job took exactly its cost and the cached balance equals the active sum. |
| CreditAnswers.ReserveAnswers | src/credits_service.py:763-831 | The answer for a job of each status; an uncharged one costs what its row says or, at zero, the configured cost, and is refused exactly when the active credits are less. |
| CreditAnswers.OldestFirst | src/credits_service.py:791-817 | A package loses credits only when every active package of the user that ends before it, or with it and is older, is used up. |
| CreditOutcomes.ReservationCosts | src/credits_service.py:784-831 | A reservation takes the effective cost out of what the user can spend now, lowers what he can spend later only as far as it must, and costs nobody else anything at any time. |
| CreditInvariant.ReserveKeeps | src/credits_service.py:756-871 | A reservation keeps the credit invariant. |
| CreditsService.FinalizeJobCredit | src/credits_service.py:874-926 | Finalizes exactly a reserved job with a zero-delta row; any other status only refreshes the balance. |
| CreditInvariant.FinalizeKeeps | src/credits_service.py:874-926 | Finalizing never fails for an existing job, keeps the invariant and every package and allocation, and leaves a fresh balance. |
| CreditAnswers.FinalizeAnswers | src/credits_service.py:874-926 | Exactly a reserved job becomes finalized, with one ledger row of the user and job and delta 0. |
| CreditsService.RefundJobCredit | src/credits_service.py:929-1020 | Restores a reserved job's allocations into its active packages, or creates one compensation package when none is left, and marks the job refunded. |
| RefundFacts.RestoreExact | src/credits_service.py:949-960 | When a package's remaining credits and the job's share fit under its grant, LEAST does not clip: the package gets back exactly that share, or nothing once expired. |
| RefundFacts.RestoreAddsUp | src/credits_service.py:949-961 | The sum of the RETURNING column is what the owner's usable credits grow by. |
| RefundFacts.RestoreSparesOthers | src/credits_service.py:949-961 | A refund leaves every other user's credits alone. |
| CreditInvariant.LiveJobFits | src/credits_service.py:947-961 | In every sound state each package has room for what a live job took from it. |
| CreditInvariant.RefundDecides | src/credits_service.py:929-1020 | Refunding a reserved job returns between 1 and its cost, namely what could be restored or the full cost when nothing could, and clips no package, whatever the clocks; the new balance is fresh exactly when something was restorable or the compensation package is active by the database's clock. |
| CreditAnswers.RefundAnswers | src/credits_service.py:929-1020 | The amount is what the job took from packages that have not ended, or its whole cost as one new package when that is nothing; it is recorded once, for that user and job. |
| CreditOutcomes.RefundSparesOthers | src/credits_service.py:947-982 | A refund changes no other user's usable credits at any instant, compensation package included. |
| CreditInvariant.RefundKeeps | src/credits_service.py:929-1020 | A refund keeps the credit invariant, whatever the job's status. |
| FifoOptimality.FifoLeads | src/credits_service.py:784-817 | For any sequence of grants, expiries and charges and any other way of choosing packages, the service has at least as many usable credits at every later instant. |
| FifoOptimality.FifoServesAll | src/credits_service.py:784-817 | A charge that some way of choosing packages could have served is never refused, and the loop pays it in full over any earliest-expiry-first order. |
| FifoOptimality.ReservationIsFifoStep | src/credits_service.py:784-831 | A successful reservation is a step of that service history. |
| Conservation.TotalsBalance | src/credits_service.py:59-112 | Total granted equals total remaining, plus allocations of live jobs, plus credits zeroed by expiry, plus allocations forfeited to expired packages. |
| Conservation.BalanceConserves | src/credits_service.py:59-112 | Balance keeping moves remaining credits only into the zeroed column, and a starter grant enters whole. |
| Conservation.DrawConserves | src/credits_service.py:791-817 | A reservation moves credits from packages to allocations one for one. |
| Conservation.RefundConserves | src/credits_service.py:949-971 | A refund moves the job's allocation back into its packages or into the forfeits of expired ones; a compensation package is a grant of its own. |
| Conservation.MergeConserves | src/account_linking_service.py:227-321 | A merge keeps the books of every package. |
| RenderService.CreateRenderJob | src/jobs_api.py:2130-2144 | Job insert and reservation in one transaction; an error leaves the tables as they were. |
| RenderService.ClaimRenderJob | src/main.py:447-455 | Claims exactly a queued, reserved job of this user. |
| RenderService.PublishRenderOutput | src/main.py:303-332 | Publishes exactly for a processing, reserved job of this user; otherwise nothing changes. |
| RenderService.FailRenderJob | src/main.py:401-435 | Fails and refunds exactly a queued or processing job of this user. |
| RenderRules.PublishOutcome | src/main.py:303-332 | Exactly the owner's job that is being processed is completed, finalized and given the result; a late output changes nothing at all; status and credits of all jobs still agree. |
| RenderRules.FailOutcome | src/jobs_api.py:2066-2090 | Exactly the owner's job that is queued or being processed is failed and refunded; on any other nothing changes. |
| RenderRules.ClaimOutcome | src/main.py:447-455 | Exactly the owner's queued job starts to be processed; any other message changes nothing. |
| Economy.BalanceKeepsEconomy | src/credits_service.py:707-747 | `get_balance` keeps the whole invariant: credits, conservation, jobs, ledger evidence, payments and trials. |
| Economy.EnsureKeepsEconomy | src/credits_service.py:591-698 | A sign-in keeps every invariant: credits, conservation, settled payments, trials, job evidence and purchase rows. |
| Economy.CreateKeepsEconomy | src/jobs_api.py:2130-2144 | Creating a job keeps the whole invariant. |
| Economy.ClaimKeepsEconomy | src/main.py:447-455 | Claiming keeps the whole invariant. |
| Economy.PublishKeepsEconomy | src/main.py:303-332 | Publishing keeps the whole invariant. |
| Economy.FailKeepsEconomy | src/main.py:401-435 | Failing or compensating keeps the whole invariant. |
| Economy.PaidKeepsEconomy | src/payments_service.py:458-589 | A result callback keeps the whole invariant. |
| Economy.MergeKeepsEconomy | src/account_linking_service.py:227-321 | An account merge keeps the whole invariant. |
| World.StepKeeps | src/main.py:438-553 | Every step of workers, requests, sign-ins, callbacks and timers keeps the invariant, including that a published result stays in storage and that a file a worker may still delete is nobody's result. |
| World.ReachableStates | src/main.py:438-499 | In every reachable state queued or processing means reserved, completed means finalized, failed means refunded, only completed jobs have results, and the credits balance package by package and in total. |
| World.JobHistory | src/main.py:411-435 | A job that is over never changes again except for its owner, processing never falls back to queued, and the cost never changes. |
| World.ClaimedOnce | src/main.py:447-455 | A job is claimed at most once in a run, however often its queue message is delivered. |
| WorkerRuns.TakeAnswers | src/main.py:447-458 | A worker takes a queue message up exactly when its job is queued and still the user's. |
| WorkerRuns.PublishAnswers | src/main.py:290-332 | An output becomes the result exactly of the job still processed for that user, and the worker is free; otherwise it is left with a file to discard. |
| WorkerRuns.CompensateAnswers | src/jobs_api.py:2066-2090 | After a failed queue push the user's live job, queued or processing, is failed, refunded and has its refund row of 1 to its cost. |
| WorkerRuns.ReportAnswers | src/main.py:401-435 | The same for a worker that gave up, which is then free. |
| World.NeverBothFinalizedAndRefunded | src/main.py:303-332 | No job is finalized at one moment of a run and refunded at another. |
| World.ResultIsForGood | src/main.py:290-332 | A result once set stays the job's only result, the job stays completed, and its file is never discarded. |
| WorkerRuns.NoFileIsForgotten | src/main.py:270-332 | In every run without a worker dying with a file and without a failed deletion each stored file is a job's result or in a worker's hands. |
| WorkerRuns.NoJobIsAbandoned | src/main.py:401-481 | In every run without a busy worker dying and without a merge of the owner of a job in process, each job taken up is over or still has the worker that will end it. |
| WorkerRuns.MergeStrandsRender | src/main.py:303-315 | After a merge nothing reported for a job as the merged user's changes any table, at any later moment of the run. |
| World.MetadataIsForGood | src/main.py:335-355 | Generation metadata of a finished job never changes, however late a worker writes. |
| WorkerRuns.MetadataAnswers | src/main.py:335-355 | Metadata are written exactly while the job is being processed. |
| Histories.CreditStepsRefresh | src/credits_service.py:591-747 | Every credit step that takes effect leaves the acting user's cached balance equal to the packages active at the step's own timestamp exactly when the credits of a new package, if it makes one, can be spent at once, and for a sign-in exactly when the old balance agreed; a step without effect changes no table, and a merge leaves no cached row where there was none. |
| Histories.SignInRefreshesIff | src/credits_service.py:591-698 | For all tables and views a sign-in leaves a right balance exactly when the cached one, less the starter credits taken off and plus those granted, agrees with the packages. |
| Histories.LapsedCreditsStay | src/auth_api.py:305-340 | A balance that was right at an earlier instant is unchanged by the sign-in, and right exactly when none of those credits ended in between. |
| FailingRuns.SignInMayShowNothing | src/auth_api.py:305-340 | A run of a new deployment, every query answered correctly, that ends with a sign-in showing less than the packages hold. |
| Histories.CreateDecides | src/jobs_api.py:2130-2144 | In every sound state a job is refused exactly when the credits do not cover it, and otherwise paid in full. |
| Histories.FailRefreshes | src/main.py:401-435 | A failed job adds between 1 and its cost to the balance, package by package what it took from the active ones, whatever the clocks; the balance is fresh exactly when what was given back can be spent at once. |
| Histories.StepGrowsLosses | src/credits_service.py:59-112 | In every step the zeroed and the forfeited credits of each package can only grow. |
| Lifetimes.StepSpares | src/credits_service.py:59-112 | No step takes credits from a package that has not ended at the step's own timestamp, and none changes a package's size, origin or end. |
| Lifetimes.NothingLostEarly | src/credits_service.py:59-112 | Between any two moments of a run a package loses nothing unless some step worked at a timestamp at which it had ended. |
| Lifetimes.SpentOrLeft | src/credits_service.py:799-817 | A package without losses stays, as long as it is active, split exactly between what remains and what live and finished jobs took. |
| Histories.LedgerIsForGood | src/account_linking_service.py:227-265 | Over every run the ledger is append-only; only the owner of a row can change, by a merge. |
| Histories.PaymentHistory | src/payments_service.py:411-626 | In every run paid is absorbing, failed and cancelled can only become paid, and amount, credits and provider id never change. |
| Histories.InvoicePackages | src/payments_service.py:458-589 | In every reachable state an invoice has exactly one purchase package, of the size it was created with, if it is paid, and none otherwise. |
| Histories.PurchaseIsRecorded | src/payments_service.py:534-562 | In every run the callback that grants files one purchase row for the full credits, which no later step removes or rewrites. |
| Histories.LedgerKnowsPurchases | src/payments_service.py:458-589 | In every reachable state the ledger has a purchase row for an invoice exactly when it is paid, for its owner and for the credits it was created with. |
| Histories.StepKeepsGranted | src/account_linking_service.py:268-321 | A user past the starter grant, or one who just absorbed such a user, is past it after every step. |
| Histories.NeverAnotherStarter | src/credits_service.py:591-698 | From then on balance keeping adds no starter package for the user in any later state before he is merged away himself. |
| Histories.ReachableBilling | src/render_billing.py:27-47 | In every reachable state reserved is shown exactly for live jobs, charged exactly for completed ones, refunded exactly for failed ones whose full cost came back. |
| Billing.BillingAgrees | src/render_billing.py:9-47 | The label computed from counts and sums over the ledger is the truth about the job; a partial restoration is shown as unknown. |
| Billing.EventAggregates | src/render_billing.py:9-24 | Count and sum over one event of a job's ledger rows are those of its single row under the event's key, or empty. |
| PaymentsService.CreateTopupPayment | src/payments_service.py:142-215 | A pending payment priced now, or the amount error and no row. |
| PaymentAnswers.TopUpBuys | src/payments_service.py:142-215 | In every run a top-up keeps the price of its request, is paid exactly when its package exists, and the package holds exactly the credits of the amount. |
| PaymentsService.MarkPaymentPaid | src/payments_service.py:458-589 | Not found, provider mismatch, amount out of range or mismatch, already paid, and settlement, in the source's order, with the whole new state. |
| PaymentAnswers.MarkPaidAnswers | src/payments_service.py:458-500 | A result callback succeeds exactly when the invoice exists and provider id and nearest kopecks are the payment's own, whatever its status; each failing test has its error. |
| PaymentsService.MarkPaymentFailed | src/payments_service.py:411-455 | Only a pending payment becomes failed; the amount is checked only when it was sent. |
| PaymentAnswers.MarkFailedAnswers | src/payments_service.py:411-455 | The same tests with an optional amount; exactly a pending payment becomes failed. |
| PaymentsService.CancelExpiredPendingPayments | src/payments_service.py:592-626 | Cancels exactly the oldest timed-out pending payments no other transaction locks, at most a batch of them, and refuses batch sizes outside 1..1000. |
| PaymentsService.SelectTimeoutBatch | src/payments_service.py:599-616 | The chosen rows are timed out and unlocked, no older eligible row is left out, and fewer than a batch means all of them. |
| PaymentAnswers.CancelAnswers | src/payments_service.py:592-626 | A scan changes only payments that are pending, unlocked and overdue, to cancelled; it leaves an overdue one only when the batch is full of older ones. |
| PaymentFacts.OnePackageIffPaid | src/payments_service.py:564-585 | In a settled state an invoice is paid exactly when it has its purchase package, which is then the only one, of the payment's size and owner. |
| PaymentFacts.MarkPaidOutcome | src/payments_service.py:458-589 | A successful callback leaves the payment paid and the tables settled; the first one appends exactly one package of the original size, later ones none. |
| PaymentAnswers.PurchaseAnswers | src/payments_service.py:564-572 | The package of a first callback: owner, source, credits, end by the application's clock, key. |
| PaymentFacts.SettleAddsUp | src/payments_service.py:524-572 | The settlement gives the owner the payment's credits at every instant until the purchase package ends, and nobody else anything. |
| PaymentFacts.MarkFailedOutcome | src/payments_service.py:411-455 | A failure return touches nothing but the status of a pending payment. |
| MergeService.MoveOwnedRows | src/account_linking_service.py:227-265 | Every package, ledger row, payment and job of the source belongs to the survivor, moved job by job; nothing else changes. |
| MergeService.MergeCreditAccounts | src/account_linking_service.py:268-321 | Both users' packages expired, the survivor's cached row rewritten with the active sum and the earlier trial date if it exists, the source's row deleted. |
| MergeRules.MergeConservesCredits | src/account_linking_service.py:227-321 | At every instant from the merge on the survivor has the sum of what both had; an existing cached row agrees. |
| MergeRules.MergeSparesOthers | src/account_linking_service.py:227-321 | Every other account and its credits stay as they were at every instant. |
| MergeRules.SourceOwnsNothing | src/account_linking_service.py:227-321 | The source has no account row, package, ledger row, job or payment left. |
| MergeRules.MergeAnswers | src/account_linking_service.py:227-321 | Every package, job, payment and ledger row stays and changes at most its owner, except that the survivor's ended packages are emptied. |
| MergeRules.GrantableAfterMerge | src/account_linking_service.py:284-318 | The survivor can still be granted a trial exactly when no starter row of either side and, if he has a cached row, no trial date of either side speaks against it. |
| MergeRules.MergedTrialIsEarliest | src/account_linking_service.py:302-318 | The survivor's trial date is the earlier of the two there are, and absent only if both are. |
| Trials.AbsorbedTrialCounts | src/account_linking_service.py:227-321 | A survivor that absorbed a used trial is past the starter grant even without a cached row of his own. |
| Trials.MergeKeepsTrials | src/account_linking_service.py:284-321 | A merge keeps every unmerged user's trial date backed by a starter row. |
| Cutover.MigrateLegacyBalances | scripts/migrate_legacy_credit_balances.py:51-112 | Marker, existing package table, reserved jobs, failing migrations, the loop over saved balances and the final reconciliation, with rollback on refusal. |
| Cutover.CutoverOutcome | scripts/migrate_legacy_credit_balances.py:51-112 | It applies exactly when not marked, no package table, no reserved job and migrations succeed; then each account can spend exactly its old balance at every instant; a refusal changes nothing. |
| Cutover.CutoverReports | scripts/migrate_legacy_credit_balances.py:102-112 | The credits it reports are what all packages hold afterwards. |
| Cutover.NeverMismatched | scripts/migrate_legacy_credit_balances.py:96-101 | The final balance check cannot fail. |
| Cutover.CutoverStartsTheBooks | scripts/migrate_legacy_credit_balances.py:76-95 | The state it leaves satisfies the credit, conservation, payment and trial invariants, and the whole invariant when old jobs and paid payments agreed with their ledger rows. |
| Lifetimes.CutoverCreditsLast | scripts/migrate_legacy_credit_balances.py:51-95 | After a cutover and any run from it, each old balance is still whole in one permanent package, spread over what remains and what jobs took, and another cutover changes nothing. |
| IdentityRules.ValidatedIsCanonical | src/users_service.py:14-28 | Accepted subjects are trimmed and non-empty, and an accepted Telegram subject is the one text of its number. |
| IdentityAnswers.ValidateAnswers | src/users_service.py:14-28 | Acceptance as an equivalence: known provider, subject not empty and without space at its ends, and for Telegram the text of a number. |
| IdentityRules.NumberHasSubject | src/users_service.py:159-170 | The subject built from a Telegram number reads back as that number and is accepted unless the number is too long to be read. |
| IdentityService.UserDirectory.EnsureUserIdentity | src/users_service.py:51-156 | Returns the identity's owner, adopts the user with that Telegram number, or creates one. |
| IdentityService.UserDirectory.LinkVerifiedIdentity | src/account_linking_service.py:137-220 | Conflict, linked, already linked and merge required, with the adoption of a legacy owner. |
| IdentityService.UserDirectory.ConfirmAccountMerge | src/account_linking_service.py:324-445 | All refusals in order and the merge of users, identities and credit tables in one step. |
| IdentityFacts.EnsureKeeps | src/users_service.py:51-156 | First authentication ends with one owner of the identity and keeps the directory invariant, and no identity of a merged account if there was none. |
| IdentityAnswers.EnsureAnswers | src/users_service.py:51-156 | Who is answered for a known identity, for a known Telegram number and otherwise, and exactly which rows are added. |
| IdentityAnswers.LinkAnswers | src/account_linking_service.py:137-220 | An equivalence for each of the four results, the token of a required merge and the one row added, with single subjects per account. |
| IdentityAnswers.LinkDecides | src/account_linking_service.py:155-209 | Without that: a conflict exactly when the subject found differs, linked exactly when none is found and nobody holds the identity. |
| IdentityFacts.LinkKeeps | src/account_linking_service.py:137-220 | Linking keeps the directory invariant for every known account: one owner per identity, one subject per provider and account; a token names the identity's present owner; a merged account gets an identity exactly when a free one is linked to it. |
| IdentityFacts.LinkKeepsSingleIff | src/account_linking_service.py:172-192 | Without mirrored Telegram numbers, linking keeps single subjects exactly unless it adopts a legacy owner who holds another one. |
| IdentityFacts.LegacyOwnerMayHoldTwo | src/account_linking_service.py:172-192 | A concrete state in which an account ends with two Telegram subjects. |
| IdentityFacts.ConfirmKeeps | src/account_linking_service.py:324-445 | Whatever the token, the invariant holds afterwards; a success absorbs the account larger in (created_at, id) into the smaller, with its identities and credits, and touches no third account. |
| IdentityAnswers.ConfirmAnswers | src/account_linking_service.py:337-400 | When a confirmation merges and what it answers otherwise, symmetric in the two accounts. |
| IdentityAnswers.MergeAnswers | src/account_linking_service.py:375-445 | The older account survives, keeps or takes over the Telegram number and gets all identities; the other points to it. |
| IdentityFacts.PointersNeverCycle | src/account_linking_service.py:375-378 | Following merge pointers always goes down in (created_at, id), so no walk returns to its start. |
| IdentityFacts.Root | src/account_linking_service.py:424-434 | Every chain of merge pointers ends at an account that is not merged. |
| IdentityFacts.HistoryKeeps | src/account_linking_service.py:137-445 | Over every history of authentications, links and merges, late links included, the directory invariant holds, users keep their creation time, and merged users stay merged into the same account. |
| IdentityFacts.OwnersLiveIff | src/account_linking_service.py:137-200 | In every history all identities belong to accounts that are not merged exactly as long as no free identity was linked to a merged one. |
| IdentityFacts.SpentForGood | src/account_linking_service.py:337-371 | A token that succeeded once changes nothing ever after, whoever replays it. |
| FitmentQueue.CheckStore.Claim | src/fitment_checks_api.py:757-772 | Claims exactly a queued check and counts the attempt. |
| FitmentQueue.CheckStore.Finish | src/fitment_checks_api.py:808-831 | Writes the outcome exactly to a processing check. |
| FitmentQueue.CheckStore.RecoverStale | src/fitment_checks_api.py:1094-1131 | Requeues stale checks with attempts left, gives up the others, and pushes exactly the requeued ids, each once. |
| FitmentQueue.EveryRun | src/fitment_checks_api.py:757-831 | Under any interleaving of claims, crashes, recoveries and late finishes a check is claimed at most three times, has an outcome written to it at most once, not even over another one, and has a verdict exactly when it completed. |
| FitmentQueue.OutcomeIsForGood | src/fitment_checks_api.py:808-831 | From its outcome on, a check keeps status and row for the rest of the run, up to verdict refreshes. |
| FitmentQueue.WorkerAnswers | src/fitment_checks_api.py:757-831 | Claiming moves exactly a queued and finishing exactly a processing check, with the whole new row. |
| FitmentQueue.RecoveryAnswers | src/fitment_checks_api.py:1094-1127 | Recovery leaves a live lease of 15 minutes alone, requeues after one or two attempts, gives up after three, and leaves no expired lease behind. |
| FitmentQueue.StepsApproachTheEnd | src/fitment_checks_api.py:1094-1127 | Every step that moves a check, other than a verdict refresh, lowers a measure of at most seven. |
| VehicleService.VehicleRow.PersistLookupOutcome | src/jobs_api.py:3424-3524 | The lookup's write, guarded by the revision that was read, with its three outcomes and no write when nothing changed. |
| VehicleAnswers.LookupAnswers | src/jobs_api.py:3424-3524 | Which answer a lookup gives and which binding it leaves: the single complete variant with its labels and slugs, an offered choice, or nothing. |
| VehicleService.VehicleRow.ApplyVariant | src/jobs_api.py:3791-3938 | The two reads and the write of an applied variant with all refusals. |
| VehicleAnswers.ApplyAnswers | src/jobs_api.py:3791-3938 | An equivalence for each answer; it writes exactly for a pending choice at the client's revision with a complete first candidate of the requested labels, and binds that candidate. |
| VehicleService.VehicleRow.ReplaceVariant | src/jobs_api.py:3630-3787 | The same for a replacement of a confirmed selection. |
| VehicleAnswers.ReplaceAnswers | src/jobs_api.py:3630-3787 | An equivalence for each answer; it writes exactly when the variant replaced is the chosen one and another complete one is found, and binds the first of that identity. |
| VehicleService.VehicleRow.SaveDetails | src/jobs_api.py:3942-4247 | The vehicle part of a save: validation order, catalogue spelling, provenance, invalidation and the revision bump. |
| VehicleAnswers.SaveAnswers | src/jobs_api.py:3942-4247 | Which answer a save gives and exactly which cells, columns and mapping it leaves; it writes exactly when something but the counters changes. |
| VehicleFacts.SaveConfirms | src/jobs_api.py:4045-4165 | After a save the confirmed fields hold the catalogue's values and count as confirmed, changed ones that were not confirmed do not, and an untouched confirmation stays. |
| VehicleFacts.SaveMakesReady | src/jobs_api.py:4119-4170 | Confirming all four fields makes the vehicle ready for a lookup. |
| VehicleFacts.SaveGuardsSelection | src/jobs_api.py:4108-4145 | A core change drops binding and descriptive columns; without one a confirmed selection is protected from the request. |
| VehicleFacts.SaveKeeps | src/jobs_api.py:4137-4247 | Every write of a save bumps the revision and so leaves no modification bound to it. |
| VehicleFacts.ConfirmedMeansReady | src/jobs_api.py:1658-1700 | In every history of the endpoints a modification confirmed at the current revision implies that the vehicle is still fully confirmed. |
| VehicleFacts.GuardsAgreeIff | src/fitment_checks_api.py:500-539 | The check accepts exactly when the overview proposes it and the mapping has the provider's base slugs. |
| VehicleFacts.EmptySlugsBreakAgreement | src/fitment_checks_api.py:500-539 | A history of one lookup after which the overview proposes a check that the check refuses. |
| VehicleFacts.NextActionAgrees | src/jobs_api.py:1760-1785 | With non-empty provider slugs the next action is to run the check exactly when the check's own guards accept. |
| VehicleFacts.RimsAgree | src/jobs_api.py:1420-1432 | A rim is ready in the overview exactly when the check finds every critical field given and confirmed. |
| VehicleAnswers.NextActionAnswers | src/jobs_api.py:1760-1785 | The next action is the first thing missing: a field confirmed, a variant chosen, the rims, the rear one only for a staggered set. |
| VehicleAnswers.CheckAnswers | src/fitment_checks_api.py:500-539 | When the check accepts, and which of its two refusals it gives otherwise. |
| Pricing.NormalizedIsNearest | src/payments_service.py:80-84 | An amount stands for exactly the nearest kopecks, halves upwards, if they are between 100 and 3000 rubles, and is refused otherwise. |
| Pricing.RoundedEqualsExact | src/payments_service.py:46-51 | Division by the 28-digit price, itself rounded to 28 digits, has the floor of the exact quotient for every kopeck amount in range. |
| Pricing.TruncateDivide | src/payments_service.py:87-92 | Rounding to 28 digits never crosses an integer the quotient reached, nor one it stays clear of. |
| Pricing.CalculateTopupCredits | src/payments_service.py:87-92 | The loop over the tiers gives the credits of the exact prices, or nothing where the amount is refused. |
| Pricing.PricingMonotone | src/payments_service.py:87-92 | For every tier table whose price does not rise with the threshold, paying more never buys less. |
| Pricing.PricingSuperadditive | src/payments_service.py:87-92 | For every such table whose lowest threshold buys a whole credit at the price of twice its amount, splitting a purchase never yields more. |
| Pricing.SuperadditiveIff | src/payments_service.py:87-92 | That condition is exact for every such table: where it fails, some purchase is worth splitting. |
| Pricing.SplittingPaysIff | src/payments_service.py:91-91 | For a table of one tier the condition is that its threshold buys a whole credit. |
| Pricing.NotEveryTierMustBuyOne | src/payments_service.py:91-91 | A table that is safe although one of its thresholds does not buy a whole credit. |
| Pricing.TopupPricing | src/payments_service.py:46-51 | The repository's own table is monotone and superadditive and gives at least one credit in range. |
| Pricing.TopupPrices | src/payments_service.py:46-51 | The credits of every amount, range by range: 45 for 1000 rubles, 1 for 25, 7 for 200, 3 for 100, rounded down. |
| ReturnRoute.NormalizeReturnTo | src/payment_return.py:37-86 | The route checks, the dictionary loop with its early exits and the canonical output compute the normaliser. |
| ReturnRoute.NormalizedShape | src/payment_return.py:37-86 | The output is an allowlisted path with allowlisted keys, each once and in canonical order, with acceptable values. |
| ReturnRoute.NormalizeAnswers | src/payment_return.py:37-86 | Exactly which routes are accepted, and which page and query values an accepted one is read as. |
| ReturnRoute.NormalizeIdempotent | src/payment_return.py:37-86 | Normalising an accepted route again gives the same route. |
| ReturnRoute.RouteReadsBack | src/payment_return.py:66-86 | A route built from an allowed path and acceptable values is accepted and read as just these. |
| ReturnRoute.SafeRouteIsNormal | src/payment_return.py:89-103 | The safe route is always a fixed point of the normaliser, fallback or not. |
| ReturnRoute.FallbackAnswers | src/payment_return.py:89-103 | The fallback is used exactly when channel or route is refused, and is the channel's start page. |
| ReturnRoute.RedirectReadsBack | src/payment_return.py:106-124 | Parsing the built redirect gives the origin, the safe route's path, its pairs, then payment and invoice_id, and nothing else. |
| FormUrl.ParseEncoded | src/payment_return.py:68-86 | Parsing an encoded query gives the pairs back, for all keys and values. |
| FormUrl.UnquoteQuotePlus | src/payment_return.py:68-86 | Percent-encoding over UTF-8 is undone by decoding, for every text. |
| FormUrl.PlainStays | src/payment_return.py:84-84 | Encoding leaves letters, digits and the four unreserved signs as they are and turns a space into a plus. |
| RateLimit.Limiter.EnforceRateLimit | src/rate_limit.py:32-48 | One request increments its own key, starts its lifetime when the key is new, and passes exactly while the count is within the limit. |
| RateLimit.CountAnswers | src/rate_limit.py:32-48 | A key without a live lifetime starts one at this request; any other counts on. |
| RateLimit.LifetimeAdmits | src/rate_limit.py:32-48 | One lifetime of a key admits exactly the smaller of its requests and the limit. |
| RateLimit.TwiceTheLimit | src/rate_limit.py:32-48 | For every trace in time order and every limit, at most twice the limit less one passes in any half-open interval of one window. |
| RateLimit.BoundIsMet | src/rate_limit.py:32-48 | For every positive limit and window a trace in which exactly that many pass. |

## Left out

- Storage, the image and vehicle providers, Telegram, payment signatures and e-mail receipts: their answers and failures are inputs of the steps.
- Tables or columns that may be missing on old deployments, and the code paths for them; every configured cost, grant and lifetime is positive.
- Row locks inside a transaction and commits with an unknown outcome; a transaction is atomic. The locks that `SKIP LOCKED` passes over are an input.
- Asset rows other than the result of a job (original photos, display copies), feedback, try-on numbers, analytics, usernames.
- Column widths: amounts are unbounded naturals, where the database would refuse an overflow.
- Ledger columns balance_after and free-form metadata; ledger deltas are not claimed to sum to balances, since a starter expiry can be recorded twice.
- Redelivery of lost queue entries, request idempotency keys in Redis, and any promise that a job finishes; after a merge old queue messages simply stop applying.
- Clocks are arbitrary and need not agree or advance, except in `FifoOptimality` and `RateLimit`, whose histories are in time order.
- The refund's UPDATE joins a package at most once because (package, job) is unique among allocations, which the invariant keeps; the model folds over the allocation rows.
- Ledger rows of one instant may come in any order; the source breaks such ties by key under the database's collation.
- Merge tokens are records that are valid or unreadable; their signature and lifetime are not part of this model.
- A session whose user id was never stored; the foreign key of the identity table refuses it.
- Cutover.MigrateLegacyBalances: the schema migrations are one input, the packages and balances they leave.
- VehicleService.VehicleRow.SaveDetails: the rim part of the save is not modelled; the agreement theorems hold for all rim rows. Inserting a first vehicle row is a starting state, and a stale rim revision only refuses more.
- VehicleFacts.NextActionAgrees: assumes that the provider names its variants with non-empty slugs; the exact condition is in VehicleFacts.GuardsAgreeIff.
- Texts are sequences of Unicode scalar values; lone surrogates, which the original refuses to encode, do not occur.
- An URL with scheme or authority is refused as a return route, so the bracketed host checks inside urlsplit are not spelled out.
- Amounts with more than 28 significant digits, which the original refuses with another error, are out of range here.
- The fitment rules engine, the vision resolver, HTML and JSON rim extraction, release scripts, bots and user interfaces.
