# Money path of the RUB to USDT payout service: a verified model

Customers pay roubles through SBP and receive USDT on a BingX account. This project models the
service's money path, its rate limiter and its refresh-token sessions in Dafny, and proves what they
keep over whole runs. `dafny verify dfyconfig.toml` checks everything.

## What is modelled

- **Tables and requests** (`Tables`, `Deposits`, `Webhooks`, `Transfers`, `BingX`). The tables are fields of
  a class `Store` that the services' methods update statement by statement. Each method is proved equal to
  a function on a snapshot `Db`, and the properties of runs are proved about those functions. Beside it each
  method states its outcome by the columns alone, with the statuses, texts and conditions written out, and a lemma
  says the same of the function (`Recorded...`, `Claimed`, `Reported`, `ChargebackHandled`, `InsertedAs`, `Rotated`).
- **Runs** (`Runs`). A run is any sequence of events: registrations, deposit checks, deposit inserts, payment and
  chargeback webhooks, worker claims, sends, exchange acceptances, answers, commits, aborts, and admin steps. A step
  that cannot happen changes nothing, so every sequence is a run. Settings, the rate among them, are fixed
  over a run; starting tables are empty.
- **Two granularities in one system.** A locked claim is production's: claim, call and record are one
  database transaction that holds the transfer row until it commits or aborts (an abort undoes the tables,
  not the send). An unlocked claim is statement level: claim, transfer row and transaction row are committed
  separately, as the stale-`processing` branch anticipates. Unless a lemma asks for `Transactional(es)` it
  holds for both, mixed in any way. The reset of a held transfer (docs/architecture.md:63-64) is a direct database step
  without NOTIFY, as the admin view of transfers is read-only.
- **Deposits are two steps.** The blacklist is read by a plain SELECT that locks nothing, so anything may come
  between the checks and the promo reservation and insert (`Checks`). A request that nothing comes between is
  `Checks.RequestIsTwoSteps`.
- **Exchange.** It pays at most once per `transferClientId`, answers success or duplicate only for an
  accepted key, and any other rejection means that this call was not accepted. A call given up on
  may still be accepted later.
- **Locks.** A claim skips rows that a worker holds. A chargeback that would cancel a held row waits, or
  one of the two is aborted. A statement-level record also waits for the row's holder.
- **Quotes** (`Decimal28`, `Config`, `Quotes`, `QuoteOrder`, `AmountText`). Decimals are exact fractions rounded to 28
  significant digits, half-even, after each operation; money is whole kopecks and 10^-8 USDT parts.
- **Rate limiter** (`RateLimit`, `EvictionBound`), **refresh tokens** (`RefreshTokens`; compare section 4.14.2 of
  RFC 9700) and the **wake-up loop** (`Wake`, `DrainRuns`) are modelled beside the money path, the loop around its
  `World`.

The run proofs build on each other: `History` (what no step rewrites), `Moves` (which step moves which row),
`Ledger` and `Truth` (what backs every payout), then `Solvency`, `PaymentRuns`, `Bans`, `Promos`, `Timing`, and for
production runs `Coupling`, `Accounted`, `Retries` and `Queue`. `Answers` traces every outcome to an answer of the
exchange, `Screening` follows single blacklist entries and chargebacks. `Scenarios` runs one customer step by step
from the empty service to a payout, and ends in the failures that need a run.

## Where a property fails

- USDT can exceed what the net amount buys: `Quotes.LongRateRoundsUp`. It happens exactly when
  rounding the quotient to 28 digits reaches the next 10^-8 part (`Quotes.UsdtAffordableIff`), never for rates
  of at least one and at most 11 digits (`Quotes.ShortRateNeverRoundsUp`).
- So the service can pay out more than it received: `Scenarios.InsolventAtLongRate`. Every run is solvent if and
  only if no amount within the deposit limits, at any discount, has a quote that rounds up and fits the
  `numeric(18,8)` column (`Scenarios.SolventIffNeverOverpays`).
- A chargeback's ban does not stop deposits whose blacklist check came before it: `Scenarios.SlippedPastBanRun` is a run
  from the empty service, `Bans.UnderWaySlipsPast` says when each of them is created, and `Bans.ChargebackBansPersist`
  that they are the only ones.
- An amount of more than 28 digits does not print as itself, as `normalize()` rounds: `AmountText.LongAmountPrintsAsOne`.
  It prints as itself if and only if its coefficient without trailing zeros has at most 28 digits
  (`AmountText.PrintParseRoundTrip`), as every stored amount does (`AmountText.StoredAmountRoundTrip`).
- "Cancelled" does not imply "not paid out": `Scenarios.CancelledAndPaidRun` is a run from the empty service,
  `Accounted.CancelledCanBePaid` the family, `Accounted.CancelledPaidOnlyIfLost` the only way it comes about.
- "At most three attempts, then error" does not hold of claims committed on their own:
  `Scenarios.CrashesUseAttempts` uses up any number of attempts by workers that die after claiming. Each stale reclaim
  adds one attempt and nothing else but an admin's reset does (`Retries.AttemptsAreBounded`); production has none
  (`Retries.RetryThenError`).
- The rate limiter lets a key exceed its limit after 50 000 other keys within its window
  (`EvictionBound.BoundIsTight`), and with fewer it never does (`RateLimit.ExactWithFewOthersInWindow`).
  `RateLimit.CountsRemembered` says what it does in every case.

## Model

| member | source | states |
|---|---|---|
| Quotes.CommissionWithinAmount | app/modules/deposits/service.py:24-27 | for every commission percent below 100 and every discount, however many digits the settings have, the 28-digit computation succeeds and the commission is at most the amount |
| Quotes.CommissionIsExact | app/modules/deposits/service.py:24-27 | while the product fits in 28 digits, the two multiplications and two divisions round nothing: the commission is the exact rational one, rounded half-even to kopecks once |
| Quotes.ExactCommissionNearest | app/modules/deposits/service.py:24-27 | that exact commission is the whole number of kopecks nearest to amount * percent * (100 - discount) / 10^4, and the even one of two equally near |
| Quotes.UsdtExactIff | app/modules/deposits/service.py:28-32 | for all validated settings, USDT is the exact truncated quotient, or one 10^-8 part more, and it is more exactly when rounding the quotient to 28 digits reaches the next part; there is no quote exactly when that result has more than 28 digits |
| Quotes.UsdtAffordableIff | app/modules/deposits/service.py:28-32 | whenever there is a quote, USDT at the rate is within the net amount if and only if that rounding does not reach the next part |
| Quotes.LongRateRoundsUp | app/modules/deposits/service.py:28-32 | counterexample: 100 RUB at a rate of 1 + 10^-30 gives 100 USDT, more than the net amount buys |
| Quotes.ShortRateNeverRoundsUp | app/core/config.py:107-112 | with a rate of at least one and at most 11 digits it never happens, for any amount the request schema lets through |
| Quotes.QuoteIsExact | app/modules/deposits/service.py:14-33 | for schema-bounded amounts, a percent of at most 11 digits and a rate of at least one and at most 11 digits, both quote amounts equal the exact rational computation |
| Quotes.QuoteLaws | app/modules/deposits/service.py:24-33 | for all validated settings: 0 <= commission <= amount, and USDT is the largest whole number of 10^-8 parts worth at most the net amount, plus one exactly when the rounding reaches the next part |
| Quotes.ShortRateQuoteLaws | app/modules/deposits/service.py:24-33 | with a rate of at least one and at most 11 digits, whatever the percent, every schema-bounded amount has a quote and its USDT is the largest the net amount buys |
| QuoteOrder.QuoteMonotone | app/modules/deposits/service.py:24-33 | for all validated settings and schema-bounded amounts: if the quote of the larger amount or discount exists, so does that of the smaller, a larger amount or discount never gives less USDT, and a larger discount never gives more commission |
| QuoteOrder.CommissionByAmount | app/modules/deposits/service.py:24-27 | rounding and all, a larger amount never leaves a smaller net amount after commission |
| Decimal28.HalfEvenNearest | app/modules/deposits/service.py:25-27 | half-even rounding is within half a unit, and even at exactly half |
| Decimal28.HalfEvenMonotone | app/modules/deposits/service.py:25-27 | half-even rounding is monotone in the value of the fraction |
| Decimal28.RepresentableIsExact | app/modules/deposits/service.py:24-29 | a 28-digit operation whose result has at most 28 digits is exact |
| Decimal28.Round28SameValue | app/modules/deposits/service.py:24-29 | 28-digit rounding depends on the value only, not on how the fraction is written |
| Decimal28.Round28Monotone | app/modules/deposits/service.py:24-29 | 28-digit rounding is monotone in the value of the fraction |
| Decimal28.Round28Close | app/modules/deposits/service.py:24-29 | 28-digit rounding moves a value by at most one part in 2 * 10^27 of it |
| AmountText.PrintParseRoundTrip | app/integrations/bingx/client.py:195-201 | the text of every positive amount is digits with at most one point, no exponent, no trailing fractional zero and no leading zero but directly before the point, and reads back as the amount rounded to 28 digits; as the amount itself if and only if it has at most 28 digits without trailing zeros |
| AmountText.RoundedNearest | app/integrations/bingx/client.py:201 | that rounding leaves up to 28 digits alone and else moves the amount by at most half a unit of the 28th digit, to an even one at exactly half |
| AmountText.PrintCanonical | app/integrations/bingx/client.py:195-201 | two amounts give the same text if and only if they round to the same 28 digits; for amounts of at most 28 digits, if and only if they are equal |
| AmountText.StoredAmountRoundTrip | migration_schema.py:79 | every amount of the numeric(18,8) column reads back as itself |
| AmountText.LongAmountPrintsAsOne | app/integrations/bingx/client.py:201 | counterexample: 1 + 10^-28 prints as 1 does |
| Deposits.ReservePromoCode | app/modules/deposits/service.py:36-53 | returns a row exactly when one has this code, is active, unexpired at this time and below its limit, takes one use of that row, and changes nothing else |
| Deposits.ReleasePromoCode | app/modules/deposits/service.py:56-70 | gives back one use of the transaction's code, never below zero; a no-op without a code |
| Deposits.CreateDepositRows | app/modules/deposits/service.py:132-234 | the statements of a deposit compute the specified next state, or the specified error in the source's order of checks |
| Deposits.DepositRequest | app/core/database.py:29-53 | outside the limits the request is refused, else with any banned entry a conflict, else inserted as InsertIs says; a refused deposit leaves every table, promo counters included, as it was |
| Deposits.CheckIs | app/modules/deposits/service.py:115-153 | the checks pass exactly when the amount is within the limits and neither the lower-cased email nor the recipient nor, if known, the ip is banned; outside the limits they refuse the amount whatever is banned |
| Deposits.InsertIs | app/modules/deposits/service.py:155-204 | a given code needs a usable row, whose discount counts; the quote must exist, be above zero and fit its column; then exactly one pending row with the quote is added and one use taken |
| Webhooks.HandleSbpPaymentWebhook | app/modules/webhooks/service.py:19-93 | every branch of the payment webhook, as PaymentIs writes it out; a rejected call changes nothing |
| Webhooks.PaymentIs | app/modules/webhooks/service.py:19-93 | by the columns: only a pending transaction reacts; failed closes it and gives the promo use back; paid needs name, phone and amount, alerts on another amount, and else pays, with KYC, one pending transfer of the stored amount at now + hold, and a notice |
| Webhooks.MarkTransactionFailed | app/modules/webhooks/service.py:134-159 | closes the transaction as failed, keeps a known payment id, releases the promo use |
| Webhooks.UpsertKycRecord | app/modules/webhooks/service.py:162-192 | one KYC row per transaction whether the row existed or not |
| Webhooks.ScheduleBingxTransfer | app/modules/webhooks/service.py:195-235 | inserts the pending transfer at now + hold unless its key is taken, and notifies either way |
| Webhooks.HandleChargebackWebhook | app/modules/webhooks/service.py:238-341 | every branch of the chargeback webhook, as ChargebackIs writes it out |
| Webhooks.ChargebackIs | app/modules/webhooks/service.py:16-341 | by the statuses: paid, completed and error end in chargeback with unsent transfers cancelled, the promo use given back, non-empty email and uid banned and one alert; chargeback is left alone; pending, failed and unknown only add to the audit log |
| Webhooks.AddChargebackBlacklist | app/modules/webhooks/service.py:369-395 | the loop upserts exactly the non-empty entries, in order, keeping the id of an existing one |
| Webhooks.CancelUnsent | app/modules/webhooks/service.py:303-312 | row by row: the pending and processing transfers of the transaction become cancelled at this time and keep everything else; no other row changes |
| BingX.ResponseToRecord | app/integrations/bingx/client.py:153-193 | from the HTTP response to the record, by status, body and text: success or a duplicate completes under the id the body carries, missing balance holds, a missing recipient fails, in this order, and no answer or any other text is retried below the third attempt and escalated from it on |
| Transfers.ClaimNextTransfer | app/workers/bingx_transfers.py:114-161 | claims exactly when some unheld row is due, and then the oldest such row: processing, one attempt more, updated now, and nothing else changed |
| Transfers.ClaimableIsDue | app/workers/bingx_transfers.py:139-151 | a row is claimable exactly when its transaction is neither in chargeback nor failed and it is pending, scheduled by now and never tried or updated at least the backoff ago, or processing and stale with the reaper on |
| Transfers.MarkTransferCompleted | app/workers/bingx_transfers.py:164-206 | completes the transfer by id, and the transaction only while it is paid |
| Transfers.RetryOrEscalateTransfer | app/workers/bingx_transfers.py:209-247 | back to pending below three attempts, then error for transfer and paid transaction |
| Transfers.HoldTransferLowBalance | app/workers/bingx_transfers.py:250-294 | puts the transfer on hold, raises a low-balance alert, leaves the transaction |
| Transfers.MarkTransferTerminalFailed | app/workers/bingx_transfers.py:297-330 | fails the transfer, and the transaction only while it is paid |
| Transfers.HandleApiError | app/workers/bingx_transfers.py:82-111 | by the text: a duplicate completes both rows, missing balance holds the transfer with one alert and leaves the transaction, a missing recipient fails both, anything else is pending below the third attempt and in error from it on |
| Transfers.AnswerIsRecorded | app/workers/bingx_transfers.py:48-111 | the same for every answer, on the rows: statuses, exchange ids of both rows, alerts, audit entries, the paid guard, and nothing else |
| Transfers.ProcessNextBingxTransfer | app/workers/bingx_transfers.py:27-79 | the oldest due row is claimed and its answer recorded as its text says; False exactly when no unheld row is due |
| Transfers.ProcessInTransaction | app/workers/bingx_transfers.py:341-353 | an exception undoes the whole task in the database |
| Accounted.AttemptIsOneTask | app/workers/bingx_transfers.py:341-353 | the claim, send, answer and commit events of a run leave the tables exactly as the worker's transaction does, whatever the exchange answers |
| Accounted.SplitAttemptIsOneTask | app/workers/bingx_transfers.py:27-79 | so do the five events of an attempt whose statements commit one by one, when nothing comes between them |
| Answers.OutcomesWereAnswered | app/workers/bingx_transfers.py:82-111 | over any run, at either granularity, a transfer is on hold only after an answer to it naming missing balance, failed only after one naming a missing recipient, completed only after success or duplicate, in error only after no answer or an unknown text on the third attempt or later; likewise its transaction once paid |
| Drain.DrainQueue | app/workers/bingx_transfers.py:356-361 | terminates for all answers and clock readings; every job is claimed in turn, oldest first, from the tables its predecessors left; the count is at most the drop of the backlog; at a normal end nothing unheld is claimable at the final claim's time |
| Drain.TaskShrinksBacklog | app/workers/bingx_transfers.py:216 | every task strictly shrinks the sum of max(1, 3 - attempt_number) over pending and processing rows |
| History.StepKeepsHistory | app/modules/webhooks/service.py:46-57 | no step of anybody rewrites a quote, recipient, key or user, and every status change is a move of the status machine |
| History.RunKeepsQuotes | docs/architecture.md:51-52 | over any run the frozen amounts, recipients and keys stay as created |
| History.AtMostThreeChanges | docs/architecture.md:54-56 | a transaction changes status at most three times over any run |
| History.AbsorbingForever | app/workers/bingx_transfers.py:151 | failed and chargeback are absorbing despite late and duplicate workers, and no transfer is claimed after either |
| Moves.StepStatus | app/workers/bingx_transfers.py:186-199 | a transaction row changes only by a decisive webhook while pending, an accepted chargeback, or a verdict on it while paid |
| Moves.StepRow | app/workers/bingx_transfers.py:131-135 | a transfer row changes only by chargeback, claim, verdict or admin reset, and exactly as each says |
| Moves.StepNewRow | app/modules/webhooks/service.py:209-225 | a transfer row appears only with the payment that makes its transaction paid, with that transaction's amount, recipient and key |
| Ledger.NoConflictOnPaid | app/modules/webhooks/service.py:180-184 | an accepted payment meets neither a KYC row nor a transfer under its key |
| Ledger.StepLinked | app/modules/webhooks/service.py:209-232 | every step keeps: one transfer per ever-paid transaction, copying its amount and recipient under its own key |
| Ledger.StepWired | app/workers/bingx_transfers.py:48-53 | every step keeps: jobs, calls on the wire and payouts carry the content of a transfer row |
| Truth.CompletedWasAccepted | app/workers/bingx_transfers.py:48-79 | over any run a completed transfer or transaction was accepted by the exchange |
| Truth.OnePayoutEach | app/workers/bingx_transfers.py:48-53 | over any run each payout is for one ever-paid transaction, of exactly its frozen USDT to its stored uid; one transfer row each |
| Truth.ConflictClausesUnused | app/modules/webhooks/service.py:224 | on reachable states both ON CONFLICT clauses of an accepted payment are never hit |
| Tables.KeyInjective | app/modules/webhooks/service.py:208 | distinct transactions have distinct idempotency keys |
| Solvency.Conservation | app/workers/bingx_transfers.py:48-53 | over any run USDT paid out plus USDT still due is the USDT of the transactions ever paid |
| Solvency.AlwaysSolvent | app/modules/deposits/service.py:24-33 | over any run, at either granularity, if no amount within the deposit limits has a quote that rounds up: USDT paid out at the rate plus the commissions of ever-paid transactions is at most the RUB confirmed by accepted webhooks |
| Solvency.ShortRateSolvent | app/modules/deposits/service.py:24-33 | so over any run at a rate of at least one and at most 11 digits |
| Scenarios.SolventIffNeverOverpays | app/modules/deposits/service.py:24-33 | the exact condition: all runs are solvent if and only if no depositable amount has a quote that rounds up and can be stored |
| Scenarios.OverpayingRun | app/modules/deposits/service.py:24-33 | for each amount and discount that rounds up, a run from the empty service to its payout that is not solvent |
| Scenarios.InsolventAtLongRate | app/modules/deposits/service.py:28-32 | counterexample: at a rate of 1 + 10^-30 without commission, an order of 100 RUB, if within the limits, makes the service insolvent |
| Scenarios.ReachesExchange | app/workers/bingx_transfers.py:48-53 | every depositable amount with a storable quote has a production run from the empty service to the worker's call, in exactly the state described |
| PaymentRuns.OnlyDecisiveMoves | app/modules/webhooks/service.py:96-131 | a webhook that does not decide a pending transaction changes nothing but alerts and audit log |
| PaymentRuns.FirstDecisiveWins | app/modules/webhooks/service.py:46-57 | after the first failed or fully valid matching paid webhook, and any other steps, every later payment webhook of the transaction changes nothing at all |
| PaymentRuns.FirstDecisiveDecides | app/modules/webhooks/service.py:46-93 | over any run a transaction is pending exactly until its first decisive webhook, which alone decides whether it is ever paid |
| Bans.ChargebackBans | app/modules/webhooks/service.py:376-395 | a chargeback of a paid, completed or errored transaction bans the owner's email and the recipient uid |
| Bans.ChargebackBansPersist | app/modules/webhooks/service.py:369-395 | over any run in which no admin lifts them, the entries stand, no deposit for that email or uid passes its checks again, and each transaction created for them comes from a request checked before the chargeback and still under way |
| Bans.NoneUnderWayNoneCreated | app/modules/deposits/service.py:115-129 | with no such request under way, none is ever created again |
| Bans.UnderWaySlipsPast | app/modules/deposits/service.py:148-204 | while both entries stand, a request checked before the ban still creates its transaction exactly when it would without any ban, and lifts neither entry |
| Scenarios.SlippedPastBanRun | app/modules/deposits/service.py:148-204 | counterexample: a production run from the empty service in which a chargeback is accepted and bans email and uid, and a transaction of both is created after it while the entries stand |
| Checks.RunOnce | app/modules/deposits/service.py:144-204 | over any run a passed check leads to at most one transaction and every transaction comes from one |
| Checks.RequestIsTwoSteps | app/modules/deposits/service.py:132-234 | check and insert with nothing between them do what the whole request does |
| Bans.RunPeople | app/modules/users/service.py:27-29 | stored emails are in lower case and not empty, and every transaction names a stored user |
| Screening.AcceptedPaymentIsReversed | app/modules/webhooks/service.py:283-341 | over any run a chargeback that goes through on any transaction whose payment was accepted, and which has neither failed nor been charged back, leaves it in chargeback with both entries standing and all else ChargebackIs lists |
| Screening.EntryKeepsOut | app/modules/deposits/service.py:115-129 | over any run, while an email, uid or ip entry stands, no request matching it passes its checks, and a transaction is created for such a request only if it had passed them before |
| Promos.PromoConservation | app/modules/deposits/service.py:36-70 | over any run used_count is the number of the code's transactions that are pending, paid, completed or in error, or failed after having a transfer |
| Promos.ReleaseNeverBlocked | app/modules/deposits/service.py:65-67 | the guard used_count > 0 never blocks a release |
| Promos.NeverOverLimit | app/modules/deposits/service.py:44-49 | a limited code is never used beyond its limit unless an admin edit sets the limit below the uses already made |
| Promos.CodesStayUnique | migration_schema.py:150 | at most one row carries a code, so a reservation names its row |
| Coupling.RunsAreCoupled | app/workers/bingx_transfers.py:129-155 | production runs: no two workers hold one transfer, the transaction and transfer statuses always form an allowed pair, every transaction past pending and not failed has exactly one transfer, and the claim guard selects exactly paid transactions |
| Coupling.StepPaired | app/modules/webhooks/service.py:280-312 | every production step keeps the pairing of the two status machines |
| Coupling.StepHolds | app/workers/bingx_transfers.py:153-154 | a held row stays a pending transfer of a paid transaction until its own worker ends |
| Accounted.AcceptedIsAccounted | app/workers/bingx_transfers.py:341-353 | production runs: an accepted payout is completed, carried by a worker whose call is on the wire or whose answer says accepted, or had its answer lost |
| Accounted.LostAcceptanceRepaired | app/workers/bingx_transfers.py:90-98 | a lost acceptance becomes completed, transfer and transaction, by the next attempt that gets the duplicate answer |
| Accounted.CancelledPaidOnlyIfLost | app/modules/webhooks/service.py:303-312 | a cancelled transfer can have been paid out only if the answer to its call was lost |
| Accounted.CancelledCanBePaid | app/modules/webhooks/service.py:303-312 | counterexample family: from every production state with a call under way, acceptance, abort and chargeback leave the transfer cancelled and paid |
| Scenarios.CancelledAndPaidRun | app/modules/webhooks/service.py:303-312 | counterexample: a production run from the empty service, with concrete settings, to a transfer that is cancelled and paid out |
| Timing.ClaimAfterHold | app/modules/webhooks/service.py:206-207 | every claim, stale reclaims included, comes at or after creation + hold |
| Queue.PendingIsClaimed | app/workers/bingx_transfers.py:139-155 | production runs: a pending transfer of a paid transaction that nobody holds is due at every time from its schedule and the backoff on, and a free worker can claim it or one created no later |
| Queue.RetryIsClaimed | app/workers/bingx_transfers.py:209-229 | production runs: after the commit of a failed attempt that is to be retried, so is that transfer, whose transaction is still paid |
| Timing.AttemptsAreClaims | app/workers/bingx_transfers.py:133 | attempt_number is the number of committed claims |
| Retries.AttemptsAreBounded | app/workers/bingx_transfers.py:131-149 | over any run, at either granularity, attempt_number is at most three and one for each reset and each stale reclaim; one less while the transfer is pending |
| Retries.RetryThenError | docs/architecture.md:65 | production runs: attempt_number is at most three and one for each reset, pending only below that, in error only from three on; an aborted attempt is undone and not counted |
| Scenarios.CrashesUseAttempts | app/workers/bingx_transfers.py:145-149 | counterexample family: with claims committed on their own, for every n a run from the empty service with n attempts on one transfer that is not in error |
| Timing.ClaimsAreSpaced | app/workers/bingx_transfers.py:126-149 | with a monotone clock committed claims of one transfer are at least min(backoff, stale threshold) apart, the backoff alone when the reaper is off |
| Wake.NoLostWakeUp | app/workers/bingx_transfers.py:400-417 | with the listener alive, a normal drain behind it and the flag unset, the waiting loop has left no notified transfer that was claimable at the final claim, but for admin resets |
| Wake.WaitLeadsToDrain | app/workers/bingx_transfers.py:393-417 | while waiting, the timeout can always end the wait and the flag can once set, and after either the loop can start the next drain |
| Wake.StepNotices | app/modules/webhooks/service.py:234-235 | a new transfer row always comes with its notification |
| DrainRuns.DrainMayFinish | app/workers/bingx_transfers.py:356-361 | every drain of the only worker that ends normally is a sequence of the loop's own steps and the exchange's acceptances, reaches the same tables, and may finish there |
| DrainRuns.TaskIsEvents | app/workers/bingx_transfers.py:341-361 | one task of the drain, whatever the exchange answers, is such a sequence |
| RateLimit.Limiter.Lookup | app/core/ratelimit.py:26-32 | finds or makes the key's entry as most recent, evicting the least recent key over the bound |
| RateLimit.Limiter.PopLeft | app/core/ratelimit.py:33-35 | the loop drops exactly the leading times that left the window |
| RateLimit.Limiter.Check | app/core/ratelimit.py:23-39 | a call on the shared table computes the specified table and verdict and keeps table and recency list consistent and bounded |
| RateLimit.Limiter.Reset | app/core/ratelimit.py:42-44 | forgets everything |
| RateLimit.CountsRemembered | app/core/ratelimit.py:26-39 | for every sequence of calls, whatever is evicted: a call is let through exactly while fewer than limit accepted calls since the key's last eviction lie in the window |
| RateLimit.RefinesInWindow | app/core/ratelimit.py:26-39 | the full-history rule holds whenever no eviction of the key has lost an accepted call that is still in the window |
| RateLimit.RefinesFullHistory | app/core/ratelimit.py:33-39 | a key whose evictions, if any, are at least a window old is let through exactly while fewer than limit accepted calls lie in (now - window, now] |
| RateLimit.NoWindowExceedsLimit | app/core/ratelimit.py:33-39 | no window of that length, wherever it lies, holds more than limit accepted calls of a key, when no eviction up to its end loses one of them |
| RateLimit.DenialIsJustified | app/core/ratelimit.py:36-37 | even after evictions every denial is justified by limit really accepted calls in the window |
| RateLimit.EvictionNeedsManyOthers | app/core/ratelimit.py:27-32 | a key is evicted only after 50 000 distinct other keys were called since its last call |
| RateLimit.ExactWithFewOthers | app/core/ratelimit.py:17-20 | a key that, while in the table, is never followed by 50 000 distinct other keys gets the full-history rule for every sequence of calls |
| RateLimit.ExactWithFewOthersInWindow | app/core/ratelimit.py:17-20 | whatever came before, a key gets the full-history rule while fewer than 50 000 distinct other keys were called within its window |
| EvictionBound.BoundIsTight | app/core/ratelimit.py:27-30 | counterexample: after exactly 50 000 other keys within the window a key limited to one call is let through twice |
| RateLimit.TableIsSuffix | app/core/ratelimit.py:19 | whatever was evicted, the table holds the last part of each key's full history |
| RefreshTokens.TokenStore.IssueTokenPair | app/modules/auth/service.py:28-86 | inserts a live token in the given family, or a new one |
| RefreshTokens.TokenStore.RotateRefreshToken | app/modules/auth/service.py:89-139 | succeeds exactly with a token whose row exists, is its subject's, unrevoked and unexpired, of an active user; then that row is revoked and one new row of the same user and family is live; a refused token changes nothing but a replayed one's family |
| RefreshTokens.RotationIs | app/modules/auth/service.py:89-177 | the same of the function the runs use |
| RefreshTokens.TokenStore.DetectRefreshReuse | app/modules/auth/service.py:142-177 | revokes the whole family of a revoked token, in a transaction that commits |
| RefreshTokens.TokenStore.RevokeRefreshToken | app/modules/auth/service.py:180-203 | logout revokes a live token and nothing else |
| RefreshTokens.OneLiveNewestToken | app/modules/auth/service.py:76 | in every reachable state a family has one user and at most one unrevoked token, its newest |
| RefreshTokens.ExchangedAtMostOnce | app/modules/auth/service.py:102-117 | each token is exchanged at most once over any run |
| RefreshTokens.ExchangedExactlyWhenHonoured | app/modules/auth/service.py:102-139 | over any run a token is exchanged exactly by presenting it while it is its active user's own, unrevoked and unexpired |
| RefreshTokens.ReplayBurns | app/modules/auth/service.py:118-126 | presenting a revoked token fails the request and still leaves the family without an unrevoked token |
| RefreshTokens.BurnedForever | app/modules/auth/service.py:150-177 | from then on the family never has an unrevoked token and none of its tokens is ever exchanged |
| RefreshTokens.SessionEndsOnlyByLogoutOrReplay | app/modules/auth/service.py:89-203 | a live family loses its live token if and only if it is logged out or a revoked token of it is replayed |

Smaller facts that these rest on: `BingX.CompleteIffAccepted` (which answers complete a transfer), `BingX.TransferIdIs`
(app/workers/bingx_transfers.py:333-338), `Coupling.GuardSelectsPaid` (the claim guard in a paired state),
`Bans.BannedCheckRefused` (the blacklist check), `Wake.FlagLeadsToDrain` (the wake-up flag),
`Accounted.GivenUpCanBeAccepted` (late acceptance), `Moves.AdminSteps` (registration and admin steps), and of the string
operations `Common.LowerIs`, `Common.LowerTwice`, `Common.ContainsIs` and `Common.StripIs`.

## Left out

- Decimal28.Round28: the exponent range of the decimal context (subnormal, overflow) is unbounded.
- Common.LowerTwice: lower-casing and stripping are ASCII; the source's are Unicode.
- Solvency.AlwaysSolvent: the rate is one setting over the run, as one process reads it once; a redeployment with another rate between deposits is not modelled.
- Transfers.ProcessNextBingxTransfer: response payloads stored as JSON, log lines and the exchange's answer text beyond its classification are not kept.
- Webhooks.HandleChargebackWebhook: the fraud dossier and audit payloads are reduced to their kind and transaction.
- Deposits.CreateDepositRows: device fingerprints and their reuse alert, stored IP and user agent, the profile-uid audit note, and the created, updated and completed timestamps of transactions are left out.
- Wake.NoLostWakeUp: one worker; with several, rows skipped under another worker's lock are outside the claim.
- RateLimit.Limiter.Check: clock readings are reals; float rounding of now - window is not modelled.
- RefreshTokens.TokenStore.RotateRefreshToken: each database transaction is one atomic step; interleavings of its statements under READ COMMITTED are not modelled, and a token is its row, its JWT and hash checks being one flag.
- Timing.ClaimsAreSpaced: assumes that clock readings do not go back; wall-clock anomalies are not modelled.
- Interleavings of statements inside one web request, other than between a deposit's checks and its insert: a webhook is one atomic step, as its lock on the transaction row makes it for one transaction; a deadlock counts as an abort.
- HTTP routes, middleware, OpenAPI, request signing, argon2, JWT encoding and UUID generation: new ids are assumed fresh.
- The admin user interface: only its effects on promo codes and the blacklist, and the reset of held transfers, are events.
- Deleting users, transactions or tokens: the service never does it.
- The SBP client: an unimplemented stub.
- Health checks, profile updates, cabinet and admin reports: read-only or append-only, they would only add easy members.
