# AX10M verification model

AX10M recovers failed payments and bills a share of the lift it can prove. This project models the parts that
decide money and evidence, and proves what they promise:

- **Learning.** The LinUCB arms keep a design matrix and its inverse, updated in place by Sherman-Morrison
  (`ContextualBandit`, `RidgeModel`); restoring a stored arm recomputes the inverse by Gauss-Jordan elimination
  (`GaussJordan`); processes pool their learning by additive deltas (`Flywheel`, `FlywheelProtocol`).
- **Evidence.** Canonical JSON (`Json`, `JsonProofs`, `Decimal`), signed acceptances (`Acceptance`), the hash-chained
  ledger (`Ledger`), its persisted repository and the append race (`LedgerRepository`, `AppendProtocol`), CSV exports
  and their parser (`Csv`), and the payout tie-out (`TieOut`).
- **Recovery.** The adaptive saga (`Saga`), the planned retry sequence and its saga (`RetrySequence`), idempotency
  keys (`Idempotency`), the guardrail and per-credential counter (`Guardrail`, `Declines`), what the two make of a
  re-run charge activity (`Replays`), and every planned cadence against them (`Cadence`).
- **Billing.** Model promotion by AUC and the seeded split (`Auc`), CUPED (`Cuped`), cluster-robust variance
  (`ClusterVariance`), post-stratification (`PostStratification`), the billable estimate and its gates (`Uplift`),
  reversals (`RecoveryEvents`, `Reversals`), observations (`Observations`), profit and loss (`Pnl`), the holdout
  credit (`HoldoutEconomics`), one billing run (`BillingRun`), any number of runs (`BillingHistory`), a bound that a
  dispute takes down and a won dispute brings back (`DisputedBounds`, `DisputeExample`), and a bound proven behind a
  closed gate (`ForfeitExample`); both examples run on one small ledger (`FourInvoices`).

`LinearAlgebra`, `Sums`, `RealArithmetic`, `Permutations` and `Wrappers` are shared vocabulary.

Check everything with `dafny verify dfyconfig.toml`.

Code that mutates (the arms, the elimination, the shuffle, the ledger, the sagas' clock and timeline, the services)
is a class or a method with loops, proved against functions; the laws are lemmas about those functions. Numbers the
source keeps as floating point are `real`; instants are integer milliseconds; `Math.round(x)` is `floor(x + 0.5)`.
Foreign calls are parameters: the hash, the signer, the square root, the confidence half-width, the sample-ratio test,
the random draws, the recoverability model, processor answers. No hash is assumed to be injective: where the original
relies on SHA-256, the theorem says "equal, or here are two texts with one digest".

## What the proofs found

- `useChampion` rebuilds the policy but keeps the flush baseline. That keeps the pool exact if and only if the baseline
  is still empty (`FlywheelProtocol.SwapKeepsPooledIff`). Both callers (`apps/api/src/recovery/recovery.module.ts:33-43`,
  `apps/api/src/worker/recovery-worker.ts:62-80`) swap before the bandit is enabled and loaded, so today it is. After one
  flush a swap would take the flushed lessons back out of the store (`FlywheelProtocol.LateSwapUnlearns`); and after
  learning, then loading from a store that is still empty, the baseline is the learned policy although nothing was
  loaded or flushed, so a swap breaks the pool there too (`FlywheelProtocol.SwapAfterEmptyLoad`).
- A flush reads, merges and saves without a lock. It is exact if and only if nobody saved a lesson between its read and
  its save, and the process learned none before it restored (`FlywheelProtocol.OverlappedFlushExact`).
- `stableStringify` identifies every value with distinct keys. The one pair of different arrays it prints alike is `[]`
  and `[undefined]` (`JsonProofs.ArraysPrintAlike`). Its comment promises the text of a jsonb round trip: that holds if
  and only if no array holds `undefined` (`JsonProofs.StoringKeepsText`). An acceptance record has no array field
  (`packages/billing/src/acceptance.ts:14-30`), so acceptances always survive storage
  (`Acceptance.MatchesAfterStorage`); the ledger's own text survives it for every detail (`Ledger.StoringKeepsChained`).
- A parsed CSV export equals what was printed if and only if every row has a cell, the last row is not one empty cell
  and the text does not begin with a byte-order mark (`Csv.ParsingUndoesPrinting`).
- `verifyChain` is documented to catch any tamper at the altered entry. That holds for altered data; an entry altered
  and rehashed to fit passes there and is reported one entry on, and the last entry is not reported at all
  (`Ledger.RehashedDataReported`), so only the head hash pins it (`Ledger.HeadCommits`).
- The idempotency text identifies a charge if and only if none of its three ids holds a colon
  (`Idempotency.TextIdentifiesCharge`).
- A re-run activity never makes a second successful charge, but it can hide the first one: exactly when its last run
  stops short of the processor although the record or the first draw says success (`Saga.SuccessHiddenIff`). The
  guardrail does stop it: a counted charge re-run at the same saga time is denied wherever the network has a minimum
  interval, so under the default policy every success whose activity crashed after counting is reported as suppressed
  (`Replays.ReplayVerdict`, `Replays.CountedReplayHidesSuccess`, `Replays.FirstSuccessHidden`).
- The reversal cap reads the invoice across merchants and currencies, while outcomes are read per merchant and the
  P&L per currency: a shared invoice id or a refund in another currency drives a net below zero
  (`Reversals.SharedInvoiceGoesNegative`, `Pnl.MixedCurrencyGoesNegative`), and another merchant's won dispute raises
  its net above what it recovered (`Reversals.SharedInvoiceExceedsRecovered`). No refund can do the first if and only if
  what the cap leaves open is within the net in question (`Reversals.ReversalKeepsOutcome`,
  `Pnl.RefundKeepsCurrencyNet`); no won dispute can do the second if and only if what stands reversed is within what the
  net falls short by (`Reversals.ReinstatementKeepsOutcome`, `Pnl.ReinstatementKeepsCurrencyNet`). Neither happens in a
  run whose inputs keep one merchant and one currency per invoice (`Reversals.RunHasOneOwner`, `Pnl.RunPnlInRange`).
- The cap also ignores reinstatements, so a second dispute on reinstated money can go unrecorded
  (`Reversals.SecondDisputeUnrecorded`); the exact condition is `Reversals.ClawbackComplete`.
- The watermark advances even on a run that bills nothing, so lift proven while a gate is closed is never billed later.
  Over any runs, gross fees are the rate times the movement of the bound less what gated runs forfeited, within half a
  unit per run on both sides; nothing is forfeited if and only if no gated run raises the bound over the watermark
  (`BillingHistory.GrossFeesBounded`). `ForfeitExample.GatedLiftIsForfeited` is an input: two runs over one month, the
  first under a gate one customer short, the second with its gates open, prove the same bound and bill none of it.
- Gross fees never exceed the rate times the proven bound, up to rounding. What is collected can: the estimator is
  documented to settle credits always, but a negative fee is floored to a net bill of zero and never refunded. What is
  collected is the gross fees plus everything so owed, and nothing is owed if and only if no run takes the bound below
  the watermark (`BillingHistory.NetMatchesFees`). For every ledger, when three runs bill one month before a dispute,
  while it is open and after it is won, the third proves the bound of the first again; whatever the dispute took off it
  is billed once more if the gates are then open (`DisputedBounds.RegainedBoundBilledAgain`).
  `DisputeExample.LostAndRegainedIsBilledTwice` is a ledger, a month and three days on which that happens.
- Observations cover one month's cohort while the watermark is per merchant and spans months; the model keeps that.
- No planned retry cadence ever meets the guardrail's pace limits: between two charges of a plan lie at least four hours
  and a plan makes at most four, so on fresh credentials a sequenced saga that starts when its plan is made is denied
  only for the global attempt cap (`Cadence.SagaKeepsPace`).

## Model

| member | source | states |
|---|---|---|
| RidgeModel.GramBoundedBelow | packages/recovery-engine/src/contextual-bandit.ts:64-67 | After any outcomes the design matrix dominates lambda times the identity: y'Ay >= lambda y'y for every y. |
| RidgeModel.DenominatorPositive | packages/recovery-engine/src/contextual-bandit.ts:157-158 | For the inverse of any design matrix with lambda > 0, 1 + x'Bx is at least 1, so the skip for a degenerate denominator is never taken. |
| RidgeModel.ShermanMorrisonInverts | packages/recovery-engine/src/contextual-bandit.ts:153-167 | For a symmetric matrix with a symmetric inverse and a non-zero denominator, the rank-one update of the inverse is the two-sided inverse of A + xx'. |
| RidgeModel.MaintainedInverseCorrect | packages/recovery-engine/src/contextual-bandit.ts:181-188 | Over any run of updates from a fresh arm with lambda > 0, the maintained matrix is symmetric and is the inverse of the symmetric design matrix. |
| ContextualBandit.ShermanMorrisonUpdate | packages/recovery-engine/src/contextual-bandit.ts:154-167 | The in-place row loop computes one inverse step, including the skipped rows and the degenerate branch that changes nothing. |
| ContextualBandit.ComputeMatVec | packages/recovery-engine/src/contextual-bandit.ts:135-145 | The nested loop is the matrix-vector product. |
| ContextualBandit.Accumulate | packages/recovery-engine/src/contextual-bandit.ts:263-270 | The loop adds xx' to A and reward times x to b, although it skips zero features for A only. |
| ContextualBandit.FreshIsLearned | packages/recovery-engine/src/contextual-bandit.ts:181-188 | A fresh arm with lambda > 0 is what no outcomes teach, and its stored inverse is exact. |
| ContextualBandit.UpdateKeepsLearned | packages/recovery-engine/src/contextual-bandit.ts:256-272 | One more outcome keeps an arm what it learned: A, b and n are those of all outcomes and the inverse is exact; the degenerate branch is never taken. |
| ContextualBandit.RestoreReproducesInverse | packages/recovery-engine/src/contextual-bandit.ts:287-294 | Gauss-Jordan on the A of a learned arm gives exactly the inverse Sherman-Morrison maintained. |
| ContextualBandit.LinUcbBanditPolicy.Update | packages/recovery-engine/src/contextual-bandit.ts:256-272 | Only the chosen arm learns, by one step of its statistics; a suppressed action changes nothing. |
| ContextualBandit.LinUcbBanditPolicy.Snapshot | packages/recovery-engine/src/contextual-bandit.ts:275-285 | The snapshot holds copies of both arms' A, b and n, and shares no row with the policy. |
| ContextualBandit.LinUcbBanditPolicy.Restore | packages/recovery-engine/src/contextual-bandit.ts:288-294 | Another dimension is refused without change; otherwise both arms become copies of the stored ones with the inverse recomputed. |
| GaussJordan.InvertMatrix | packages/recovery-engine/src/contextual-bandit.ts:104-133 | For every square matrix, the result is its two-sided inverse if and only if the matrix is nonsingular. |
| GaussJordan.EliminationInverts | packages/recovery-engine/src/contextual-bandit.ts:108-132 | Pivoted elimination on a nonsingular matrix ends at the identity with the inverse recorded; on a singular one it does not invert. |
| GaussJordan.NoZeroPivot | packages/recovery-engine/src/contextual-bandit.ts:116-117 | On a nonsingular matrix no column's pivot is zero, so the singular-column branch is never taken. |
| GaussJordan.ZeroPivotMeansSingular | packages/recovery-engine/src/contextual-bandit.ts:109-117 | A zero pivot exposes a non-zero vector that the matrix sends to zero. |
| Flywheel.MergeBanditDelta | packages/recovery-engine/src/contextual-bandit.ts:346-364 | The nested loops compute persisted + (current - baseline) on both arms, changing none of the three inputs. |
| Flywheel.MergeDelta | packages/recovery-engine/src/contextual-bandit.ts:337-345 | Merging teaches the stored model exactly the lessons learned since the baseline, each once. |
| Flywheel.TaughtPermuted | packages/recovery-engine/src/contextual-bandit.ts:339-344 | Learning the same lessons in any order gives the same state. |
| FlywheelProtocol.LoadIsLoad | apps/api/src/recovery/recovery-case.service.ts:152-162 | The load handler is the load step of the pool: what it does to a process keeps the pooling invariant, so a loaded process never flushes a lesson twice. |
| FlywheelProtocol.FlushIsFlush | apps/api/src/recovery/recovery-case.service.ts:169-182 | The flush handler is the flush step of the pool, or the failed one when the store is down, and keeps the pooling invariant. |
| FlywheelProtocol.OverlappedFlushExact | apps/api/src/recovery/recovery-case.service.ts:169-182 | A flush overlapped by others is exact if and only if they saved no lesson between its read and save; its own lessons survive the restore if and only if it learned none meanwhile. |
| Flywheel.FlywheelService.FlushBanditState | apps/api/src/recovery/recovery-case.service.ts:169-182 | The handler takes store, policy, baseline and counter to the flushed state, or changes none of the four when the store is down. |
| Flywheel.FlywheelService.LearnOnline | apps/api/src/recovery/recovery-case.service.ts:201-215 | An outcome is learned once and counted; the 25th since the counter was reset resets it and flushes, also when the store is down. |
| FlywheelProtocol.LearnIsLearn | apps/api/src/recovery/recovery-case.service.ts:201-215 | The learning handler is a learning step, followed on every 25th outcome by a flush or a failed flush, and keeps the pooling invariant. |
| FlywheelProtocol.BacklogStaysShort | apps/api/src/recovery/recovery-case.service.ts:207-214 | Over any run of a process's handlers, between any events of the other processes and with its store up, it never holds 25 unflushed lessons. |
| FlywheelProtocol.FreshBacklogShort | apps/api/src/recovery/recovery-case.service.ts:201-215 | A process that has just started is such a start. |
| FlywheelProtocol.SwapKeepsPooledIff | apps/api/src/recovery/recovery-case.service.ts:189-193 | A champion swap keeps the pooling invariant if and only if the process has the empty baseline. |
| FlywheelProtocol.SwapIsSwap | apps/api/src/recovery/recovery-case.service.ts:189-193 | The champion handler is that swap. |
| FlywheelProtocol.LateSwapUnlearns | apps/api/src/recovery/recovery-case.service.ts:164-193 | In the reachable world after one lesson and one flush, a swap and the next flush leave the store without the lesson although it was flushed. |
| FlywheelProtocol.SwapAfterEmptyLoad | apps/api/src/recovery/recovery-case.service.ts:152-193 | In the reachable world after one lesson and a load from an empty store, nothing has been loaded or flushed and a swap breaks the pooling invariant. |
| FlywheelProtocol.StepKeepsPooled | apps/api/src/recovery/recovery-case.service.ts:152-182 | Starting, learning, loading, flushing, failing to flush and restarting each keep the pooling invariant: the store is the sum of flushed lessons, every delta the sum of pending ones, and no lesson is lost or doubled. |
| FlywheelProtocol.RunKeepsPooled | apps/api/src/recovery/recovery-case.service.ts:164-182 | Any interleaving of any number of processes keeps that invariant. |
| FlywheelProtocol.PoolingIsExact | packages/recovery-engine/src/contextual-bandit.ts:337-345 | From an empty store, the persisted model is the empty one taught each flushed lesson once; when all have flushed and nothing was dropped it equals one model that saw every lesson, in any order. |
| FlywheelProtocol.PooledModelRestores | packages/recovery-engine/src/contextual-bandit.ts:287-294 | In any reachable pool each stored arm is the ridge model of the outcomes flushed for it, and restoring it by Gauss-Jordan gives the inverse one process seeing those outcomes would have maintained. |
| FlywheelProtocol.ChampionSwapExact | apps/api/src/recovery/recovery-case.service.ts:189-193 | After a champion swap the next flush adds exactly the lessons learned since if and only if the kept baseline is the empty state's. |
| JsonProofs.TextIdentifiesMeaning | packages/billing/src/canonical-json.ts:17-25 | Two values with distinct keys print the same canonical text if and only if they are equal up to key order and undefined members at every depth, an array of one undefined item counting as empty. |
| JsonProofs.TextUnambiguous | packages/billing/src/canonical-json.ts:17-25 | No canonical text is followed by another reading: text and remainder determine the value's meaning and the remainder. |
| JsonProofs.EscapedUnambiguous | packages/billing/src/canonical-json.ts:18 | Escaped strings, closed by a quote, determine the string (section 7 of RFC 8259). |
| JsonProofs.SortedCorrect | packages/billing/src/canonical-json.ts:21-24 | Dropping undefined members and sorting keeps the object's meaning, in strictly ascending key order. |
| JsonProofs.ArraysPrintAlike | packages/billing/src/canonical-json.ts:19 | Two arrays print alike if and only if their items mean the same one by one, or, in billing, both are among the empty array and the array of one undefined item. |
| JsonProofs.StoringKeepsText | packages/billing/src/canonical-json.ts:10-16 | A value read back from JSON storage prints the text it had if and only if, in billing, no array holds undefined; in the ledger always. |
| Decimal.PrintedUnambiguous | packages/billing/src/canonical-json.ts:18 | A printed integer is recovered from any text it starts, as long as no digit follows. |
| Acceptance.MatchesAfterRoundTrip | packages/billing/src/acceptance.ts:40-50 | A signed record still matches after any round trip that reorders keys or drops undefined members. |
| Acceptance.MatchesOnlyOwnContent | packages/billing/src/acceptance.ts:46-50 | A document carrying a record's hash matches if and only if its content means the same, or the two canonical texts collide under the hash. |
| Acceptance.MatchesAfterStorage | packages/billing/src/canonical-json.ts:10-16 | A signed record that has been through JSON storage matches if and only if no array of the record holds undefined, or the two texts collide. |
| Acceptance.CoreRespectsMeaning | packages/billing/src/acceptance.ts:48 | Equal signed documents stay equal once the three signing fields are dropped. |
| Ledger.CanonicalIdentifies | packages/attribution/src/ledger.ts:63-85 | The canonical text of an entry whose detail has distinct keys determines its data up to key order and undefined members, undefined items being null, and conversely. |
| Ledger.PayloadIdentifies | packages/attribution/src/ledger.ts:88-93 | Previous hash and canonical text, concatenated, determine both when the previous hashes have one length. |
| Ledger.HashChainedLedger.Append | packages/attribution/src/ledger.ts:103-113 | Appending adds one entry numbered by the length, linked to the head, and the chain still verifies. |
| Ledger.VerifyChain | packages/attribution/src/ledger.ts:145-165 | Valid if and only if every entry has its number, link and hash; otherwise the index reported is the first that does not. |
| Ledger.AppendKeepsChained | packages/attribution/src/ledger.ts:103-113 | The entry built on the head of a verifying chain keeps it verifying. |
| Ledger.HeadCommits | packages/attribution/src/ledger.ts:115-120 | Two verifying chains with one head hash are equal entry by entry up to key order, unless two different hashed texts collide or one hashes to the genesis value. |
| Ledger.AlteredDataReported | packages/attribution/src/ledger.ts:140-165 | Altering one entry's data alone is reported at exactly that entry, unless the data means the same or the two texts collide. |
| Ledger.RehashedDataReported | packages/attribution/src/ledger.ts:152-161 | Altering an entry and recomputing its hash verifies if it is the last entry or the hash is unchanged, and otherwise is reported at the next entry. |
| Ledger.StoringKeepsChained | packages/persistence/src/ledger-repo.ts:42-52 | Entries whose details have been through a JSON column verify if and only if they verified before. |
| LedgerRepository.LedgerTable.ReadHead | packages/persistence/src/ledger-repo.ts:84-91 | On verifying rows the greatest seq gives the next number and the hash to link to. |
| LedgerRepository.LedgerTable.Append | packages/persistence/src/ledger-repo.ts:77-103 | The call commits on the first attempt no rival beats, directly on top of what the rivals of its lost attempts committed; it gives up exactly after eight lost attempts, adding nothing. |
| LedgerRepository.LedgerTable.TryAppend | packages/persistence/src/ledger-repo.ts:81-96 | One transaction succeeds if and only if no rival committed between its read and its insert, and then adds its row on top of the chain. |
| LedgerRepository.EachLossIsARow | packages/persistence/src/ledger-repo.ts:97-102 | k lost attempts mean at least k rows committed by others. |
| LedgerRepository.LedgerTable.Verify | packages/persistence/src/ledger-repo.ts:127-130 | The check over rows written by appends never fails. |
| AppendProtocol.StepKeepsSafe | packages/persistence/src/ledger-repo.ts:79-101 | Any step of any appender, without the advisory lock, keeps the rows verifying, changes no row and commits at most one. |
| AppendProtocol.RunIsSafe | packages/persistence/src/ledger-repo.ts:68-103 | Over any interleaving the rows verify, none is changed, a returned entry stays at its seq, the new rows and the returned calls correspond one to one, and a call that gave up saw at least eight rows committed since it began. |
| AppendProtocol.TryAppendIsRun | packages/persistence/src/ledger-repo.ts:81-96 | One transaction of the repository is a run of the protocol: the read of the head, each rival's steps, the insert, with the outcome the repository's transaction promises. |
| AppendProtocol.VerifiedStartIsSafe | packages/persistence/src/ledger-repo.ts:127-130 | Any verifying table is a safe start for any run. |
| Csv.ParseCsv | packages/recovery-engine/src/bin-csv.ts:38-58 | The loop over row, field and quote state computes the character-by-character reading, after dropping one leading byte-order mark. |
| Csv.ReadBack | packages/recovery-engine/src/bin-csv.ts:43-57 | Exactly what any printed table reads back as: empty rows become one empty cell, a leading byte-order mark is lost, a final row of one empty cell is dropped. |
| Csv.ParsingUndoesPrinting | packages/attribution/src/reconciliation.ts:309-319 | Parsing what was printed returns the neutralized cells, with quotes, commas and line breaks, if and only if the table is printable. |
| Csv.ReportReadsBack | packages/attribution/src/reconciliation.ts:326-340 | A header and rows of two or more cells, not beginning with a byte-order mark, always read back (section 2 of RFC 4180). |
| Auc.ComputeAuc | packages/recovery-engine/src/training.ts:163-182 | The tie-block rank computation equals the pairwise score: positives above negatives plus half the ties, over all pairs, and 0.5 when a class is empty. |
| Auc.RanksByValue | packages/recovery-engine/src/training.ts:167-177 | Each value gets one plus the number below it plus half the other ties. |
| Auc.RankSumIsAllWins | packages/recovery-engine/src/training.ts:178-181 | The rank sum of the positives less n(n+1)/2 is the number of pairwise wins. |
| Auc.AucInRange | packages/recovery-engine/src/training.ts:162-182 | The score lies between 0 and 1. |
| Auc.AucPermuted | packages/recovery-engine/src/training.ts:162-182 | The order of the predictions does not matter. |
| Auc.Shuffle | packages/recovery-engine/src/training.ts:55-63 | The in-place loop settles positions from the last down, each by swapping in its draw. |
| Auc.ShuffledPermutes | packages/recovery-engine/src/training.ts:54-63 | A shuffle permutes, and leaves settled positions alone. |
| Auc.ShuffleIsInjective | packages/recovery-engine/src/training.ts:54-63 | Different picks give different orders. |
| Auc.ShuffleReachesEveryOrder | packages/recovery-engine/src/training.ts:54-63 | Every order of distinct elements is reached by some picks, so with injectivity each order by exactly one. |
| Auc.SplitTrainTest | packages/recovery-engine/src/training.ts:185-200 | The test side is, in sample order, the samples whose index is among the first of the shuffled indices; the train side is the others. |
| Auc.SplitIsExact | packages/recovery-engine/src/training.ts:184-200 | Every sample lands on exactly one side, and the test side has the rounded size, read as slice reads it. |
| Saga.InMemoryRuntime.SleepUntil | packages/scheduler/src/runtime.ts:35-42 | The virtual clock moves to the target and records the sleep, or stays when the target is past. |
| Saga.RecoveryCasePort.Execute | packages/scheduler/src/driver.ts:75-79 | However often an execute activity is re-run, and wherever its earlier runs crash, the record is that of all its runs under this attempt's idempotency key, and the saga sees the answer of the last. |
| Saga.SagaDriver.PlanAndSleep | packages/scheduler/src/driver.ts:64-73 | Planning and sleeping executes nothing, and leaves the clock exactly at the retry's time, at once when that has passed, or after the fallback gap. |
| Saga.SagaDriver.Conclude | packages/scheduler/src/saga.ts:53-79 | Success stops as recovered; pending waits exactly the settlement window, notes it on the timeline and hands off; failure retries below the ceiling and is exhausted at it; every other answer stops with its own reason, at once. |
| Saga.SagaDriver.RunRecoverySaga | packages/scheduler/src/driver.ts:43-98 | Attempts 1..k are executed with k at most the ceiling, all but the last failed charges, each exactly when the plan made at the failure before it says; status and the reported attempt follow from the last answer. However activities re-run, recorded outcomes stand, only the last attempt's key can newly succeed, and it does so under a status other than recovered if and only if the key was fresh, its first charge succeeded and the last run did not reach the processor. |
| Saga.ReplaysInvisible | packages/scheduler/src/driver.ts:75-79 | When the last run of an activity reaches the processor, it sees what the first run to reach it got, and the record is that of this one run. |
| Saga.SuccessHiddenIff | packages/scheduler/src/driver.ts:75-79 | The record says succeeded while the saga is told otherwise if and only if the last run did not reach the processor and the key was already on record as succeeded, or was fresh and first drew success. |
| Saga.KeyReusedByCollision | packages/poal/src/idempotency.ts:20-33 | An attempt finds its key used by an earlier attempt if and only if the digests of their two texts collide. |
| Replays.ReplayVerdict | packages/guardrail/src/guardrail.ts:66-92 | A request counted and evaluated again at the same saga time is denied for the interval wherever the network has one, and otherwise allowed exactly while the cap has room. |
| Replays.DefaultReplayDenied | packages/guardrail/src/types.ts:83-102 | Under the default policy every counted charge is denied when re-run. |
| Replays.RunsUpToFirstCounted | apps/api/src/recovery/recovery-case.service.ts:580-584 | With a minimum interval, the runs of an allowed charge reach the processor, unless they crash before it, up to the first that is counted, and none after it. |
| Replays.CountedReplayHidesSuccess | apps/api/src/recovery/recovery-case.service.ts:717-803 | With a minimum interval, and wherever the runs crash, a fresh charge is hidden from the saga if and only if the guardrail allowed it, the first run to reach the processor drew a success and a run before the last crashed after counting. |
| Replays.FirstSuccessHidden | packages/scheduler/src/temporal/workflow.ts:24-29 | The first charge of a retriable decline under the default policy, succeeding and counted before a crash, is reported as suppressed. |
| Idempotency.DistinctCharges | packages/poal/src/idempotency.ts:24-33 | A charge whose ids hold no colon shares its key text with no other charge, whatever the ids of the other. |
| Idempotency.DistinctAttempts | packages/poal/src/idempotency.ts:20-33 | Whatever the ids, two attempts of one saga have different key texts. |
| Idempotency.TextIdentifiesCharge | packages/poal/src/idempotency.ts:24-33 | The key text identifies a charge among all charges if and only if none of its three ids holds a colon. |
| Idempotency.SameKeySameCharge | packages/poal/src/idempotency.ts:20-33 | A charge with plain ids shares its key with another only if the digests of their texts agree in the part the key keeps. |
| RetrySequence.StrategyFor | packages/recovery-engine/src/retry-strategy.ts:81-108 | A strategy has at most the network's attempts and positive gaps, and is empty exactly for declines that are not retried. |
| RetrySequence.PlanRetrySequence | packages/recovery-engine/src/sequence.ts:51-101 | A decline that is not retried gives one terminal step; otherwise the steps are the strategy's, cut just before the first attempt that scores below the floor. |
| RetrySequence.PlanIsSound | packages/recovery-engine/src/sequence.ts:74-98 | Planned times strictly increase from now, attempts are consecutive, the length is within the network's ceiling and every score is at the floor or above. |
| RetrySequence.SequencedDriver.RunSequencedRecoverySaga | packages/scheduler/src/sequenced-driver.ts:25-93 | The timeline opens with the plan's length and ends with the reason to stop; its executions are a prefix of the plan, each step at its time or, when that has passed, as soon as the one before it failed; the status follows from the last answer or the terminal step, and is exhausted if and only if a non-empty plan was executed whole and every charge failed. |
| RetrySequence.ScheduleKept | packages/scheduler/src/sequenced-driver.ts:49-75 | A sequenced saga that starts no later than its plan was made executes every step exactly at its time. |
| Guardrail.InMemoryCredentialAttemptStore.GetWindow | apps/api/src/recovery/credential-attempt-store.ts:46-50 | The window is the count so far and the whole minutes since the last attempt in saga time. |
| Guardrail.InMemoryCredentialAttemptStore.Increment | apps/api/src/recovery/credential-attempt-store.ts:51-53 | One credential's count goes up by one, stamped with the time; others stay. |
| Guardrail.RecoveryCaseService.AttemptRecovery | apps/api/src/recovery/recovery-case.service.ts:528-583 | The verdict is that of the window before the call, and only an allowed call that the processor answers counts and records one charge; any other leaves counter and record as they were. |
| Guardrail.AllowedIsWithinCaps | packages/guardrail/src/guardrail.ts:66-92 | A charge the guardrail allows has its attempt number within the global cap, fewer charges on its credential than the network's cap, and the minimum interval behind it. |
| Guardrail.RunIsCompliant | apps/api/src/recovery/recovery-case.service.ts:717-799 | Over any serialized run of live attempts the counter equals the record, and every charge respects the attempt cap, the network window cap when it was made, and the minimum interval since the previous charge on its credential. |
| Guardrail.CapHolds | packages/guardrail/src/guardrail.ts:83-89 | A credential always charged on one network never has more charges than that network's cap. |
| Cadence.PlanKeepsPace | packages/recovery-engine/src/retry-strategy.ts:55-108 | For every decline worth retrying, every plan of it and every policy with intervals up to four hours and caps of at least four: walked on time on unused credentials, whatever the processor answers, each attempt is allowed up to the global attempt cap and denied for nothing else. |
| Cadence.DefaultKeepsPace | packages/guardrail/src/types.ts:83-102 | The default policy is such a policy. |
| Cadence.SagaKeepsPace | packages/scheduler/src/sequenced-driver.ts:25-93 | So no execution of a sequenced saga that starts when its plan is made is denied for the interval or the window cap under it. |
| Cuped.FitCuped | packages/attribution/src/sequential.ts:227-249 | The loop computes the slope Cov/Var and the squared correlation, and no adjustment for short, mismatched or constant samples. |
| Cuped.SumUnchanged | packages/attribution/src/sequential.ts:220-226 | Any slope centred on the covariate mean leaves the sum and mean of outcomes unchanged. |
| Cuped.CauchySchwarz | packages/attribution/src/sequential.ts:236-248 | The squared covariance is at most the product of the variances, for every sample. |
| Cuped.CupedShrinksVariance | packages/attribution/src/sequential.ts:220-254 | The fitted adjustment keeps the sum and gives variance Var(Y)(1 - reduction) with the reduction in [0, 1], so it never raises variance. |
| Cuped.FittedSlopeIsBest | packages/attribution/src/sequential.ts:211-216 | No other slope gives a smaller variance. |
| ClusterVariance.ClusteredArmVariance | packages/attribution/src/sequential.ts:270-284 | The map of residual sums and the loop over it compute the cluster-robust variance with the small-sample factor. |
| ClusterVariance.ClusterSumsCancel | packages/attribution/src/sequential.ts:274-278 | The residual sums of an arm's clusters total zero. |
| ClusterVariance.VarianceSign | packages/attribution/src/sequential.ts:279-283 | The variance is never negative, and zero if and only if every cluster's residuals cancel. |
| ClusterVariance.OneClusterHidesVariance | packages/attribution/src/sequential.ts:371-374 | An arm in one cluster shows no variance whatever its values. |
| ClusterVariance.VarianceIsDoubleSum | packages/attribution/src/sequential.ts:260-269 | The loop equals the direct sum of residual products over pairs of rows in the same cluster. |
| ClusterVariance.VariancePermuted | packages/attribution/src/sequential.ts:270-284 | Row order does not matter. |
| PostStratification.EffectiveLabels | packages/attribution/src/sequential.ts:327-342 | Each observation gets its stratum when both arms of that stratum reach the floor, and the pooled label otherwise. |
| PostStratification.BuildCells | packages/attribution/src/sequential.ts:344-359 | Each label's cell holds the rows of its observations, per arm, in order; labels keep first-appearance order. |
| PostStratification.StrataPartition | packages/attribution/src/sequential.ts:344-359 | However strata pool, an arm's invoices and outcomes are split over the cells without loss or double counting. |
| PostStratification.WeightsSumToOne | packages/attribution/src/sequential.ts:383 | The stratum weights sum to 1 as soon as one invoice is treated. |
| PostStratification.DeltaIsMeanLift | packages/attribution/src/sequential.ts:383-387 | The point estimate is the mean, over treated invoices, of the outcome less the control mean of the invoice's own cell. |
| PostStratification.EstimateVarianceNonNegative | packages/attribution/src/sequential.ts:388-402 | The variance of the estimate is never negative. |
| PostStratification.UnpooledClearFloor | packages/attribution/src/sequential.ts:335-342 | Every cell but the pooled one has at least the floor in each arm. |
| Uplift.AdjustmentMovesOutcomesOnly | packages/attribution/src/sequential.ts:319-325 | Adjustment changes outcomes alone, keeps their sum and does not raise their variance. |
| Uplift.Stratify | packages/attribution/src/sequential.ts:327-401 | Lines, point estimate and variance are those of the effective strata. |
| Uplift.GateReasons | packages/attribution/src/sequential.ts:422-434 | A reason is listed if and only if its gate fails. |
| Uplift.ComputeBillableUplift | packages/attribution/src/sequential.ts:306-465 | A bad configuration is refused; otherwise the estimate, gates, cumulative bound, increment over the prior bound and fee are those defined. |
| Uplift.BillableIsSupported | packages/attribution/src/sequential.ts:422-434 | A billable result has, in every stratum line, both arms at the floor or above, non-empty, and with at least two customers each. |
| Uplift.BillableLiftProven | packages/attribution/src/sequential.ts:424-431 | A billable result has a point estimate above its half-width, a positive standard error, an unbroken sample ratio and the minimum sizes. |
| Uplift.FeeDirection | packages/attribution/src/sequential.ts:436-442 | The bound is never negative; a positive fee needs a billable result and a grown bound; a shrunken bound is credited even when gated; an unchanged one costs nothing. |
| Uplift.BoundIsDetermined | packages/attribution/src/sequential.ts:404-439 | The observations alone decide the proven bound and whether the gates are open, whatever was billed before. |
| Reversals.RecoveryCaseService.NetRecoveredForInvoice | apps/api/src/recovery/recovery-case.service.ts:960-968 | Recovered less reversed for the invoice, across merchants, without reinstatements. |
| Reversals.RecoveryCaseService.RecordReversal | apps/api/src/recovery/recovery-case.service.ts:976-990 | A reversal is recorded capped to the net, or not at all when nothing is net recovered. |
| Reversals.RecoveryCaseService.RecordReversalReverted | apps/api/src/recovery/recovery-case.service.ts:1011-1025 | A reinstatement is recorded capped to what is reversed, or not at all. |
| Reversals.StepKeepsBalanced | apps/api/src/recovery/recovery-case.service.ts:970-1025 | A recovery, capped reversal, capped reinstatement or unrelated entry keeps recovered >= reversed >= reinstated >= 0 on every invoice. |
| Reversals.RunIsBalanced | apps/api/src/recovery/recovery-case.service.ts:970-1025 | So does any run of them with non-negative amounts. |
| Reversals.OutcomeInRange | apps/api/src/billing/observations.ts:60-70 | With one merchant per invoice id, a merchant's net on an invoice lies between 0 and what it recovered there. |
| Reversals.ReversalKeepsOutcome | apps/api/src/recovery/recovery-case.service.ts:976-990 | No refund by a merchant, whatever its amount, can take its net on the invoice below zero if and only if the net recovered across merchants is at most that merchant's own net. |
| Reversals.RunHasOneOwner | apps/api/src/recovery/recovery-case.service.ts:970-1025 | A run whose recoveries and reversals of an invoice always come for one merchant leaves a ledger with one merchant per invoice id. |
| Reversals.SharedInvoiceGoesNegative | apps/api/src/recovery/recovery-case.service.ts:960-990 | Two merchants sharing an invoice id: a refund drives the other merchant's outcome to minus the amount. |
| Reversals.ReinstatementKeepsOutcome | apps/api/src/recovery/recovery-case.service.ts:1011-1025 | No won dispute by a merchant, whatever its amount, can take its net on the invoice above what it recovered there if and only if what stands reversed across merchants is at most what that net falls short by. |
| Reversals.SharedInvoiceExceedsRecovered | apps/api/src/recovery/recovery-case.service.ts:1003-1025 | Two merchants sharing an invoice id: a won dispute gives the other merchant a net it never recovered. |
| Reversals.ClawbackComplete | apps/api/src/recovery/recovery-case.service.ts:956-968 | A reversal claws back all that is still held if and only if nothing was reinstated or the amount fits in what was never reversed. |
| Reversals.SecondDisputeUnrecorded | apps/api/src/recovery/recovery-case.service.ts:970-1025 | For every payment recovered, disputed, won back and disputed again, the second dispute leaves no entry while the whole amount is still held. |
| Observations.ReconstructObservations | apps/api/src/billing/observations.ts:59-91 | One observation per assignment of the merchant in the period, in order, with the invoice's all-time signed net as outcome and the documented defaults. |
| Observations.ObservationSource | apps/api/src/billing/observations.ts:71-89 | Every observation comes from such an assignment and carries that invoice's net. |
| Observations.OutcomesInRange | apps/api/src/billing/observations.ts:60-89 | Over any run of recoveries, reversals and reinstatements with one merchant per invoice id, every outcome lies between 0 and what was recovered. |
| Observations.StatementsAreNotEvidence | apps/api/src/billing/observations.ts:59-91 | Appending billing statements changes no observation. |
| Pnl.PnlTotals.Accumulate | apps/api/src/analytics/pnl.ts:114-144 | One entry moves exactly its own counters, and money only in the reporting currency. |
| Pnl.ProcessorPnl | apps/api/src/analytics/pnl.ts:174-179 | The totals of a list of entries, with net and fee. |
| Pnl.ComputePnl | apps/api/src/analytics/pnl.ts:181-209 | Cumulative totals, and one row per processor over exactly its entries. |
| Pnl.RowReports | apps/api/src/analytics/pnl.ts:97-107 | A row reports the signed total in the reporting currency and the rounded fee on it. |
| Pnl.NetAddsUp | apps/api/src/analytics/pnl.ts:114-144 | Net recovered is the sum of the nets per invoice, or per any other key. |
| Pnl.ProcessorsAddUp | apps/api/src/analytics/pnl.ts:197-208 | The processors' nets add up to the cumulative net. |
| Pnl.ProcessorFeesNearly | apps/api/src/analytics/pnl.ts:97-107 | The processors' rounded fees add up to the cumulative fee within half a unit per row, plus half a unit. |
| Pnl.PnlInRange | apps/api/src/analytics/pnl.ts:97-144 | On a balanced ledger with one currency per invoice, net lies between 0 and gross and the fee between 0 and the fee on gross. |
| Pnl.MixedCurrencyGoesNegative | apps/api/src/analytics/pnl.ts:114-134 | A refund in another currency makes that currency's net negative and leaves the original one untouched. |
| Pnl.RefundKeepsCurrencyNet | apps/api/src/recovery/recovery-case.service.ts:976-990 | No refund, whatever its amount and currency, can take an invoice's net in a currency below zero if and only if the net recovered over all currencies is at most the net in that one. |
| Pnl.ReinstatementKeepsCurrencyNet | apps/api/src/recovery/recovery-case.service.ts:1011-1025 | No won dispute, whatever its amount and currency, can take an invoice's net in a currency above what was recovered in it if and only if what stands reversed over all currencies is at most what that net falls short by. |
| Pnl.RunPnlInRange | apps/api/src/analytics/pnl.ts:97-144 | Over every run whose inputs keep each invoice in one currency, every currency's net lies between 0 and gross and its fee between 0 and the fee on gross. |
| HoldoutEconomics.NetSplitsFee | packages/billing/src/holdout-economics.ts:63-81 | Credit plus net bill is the fee when positive and zero when not; net bill plus forgone recovery is exactly the fee as long as the cost is within it, and the net bill is zero if and only if the cost reaches the fee. |
| BillingRun.PriorBilledFromLedger | apps/api/src/billing/billing.ts:55-68 | The loop returns the watermark of the merchant. |
| BillingRun.WatermarkIsLatest | apps/api/src/billing/billing.ts:50-68 | The watermark is the bound of the latest-dated statement, the last listed among equals, and 0 for a merchant never billed. |
| BillingRun.RunBilling | apps/api/src/billing/billing-run.ts:93-145 | One bill per merchant of the ledger snapshot, each the supported estimate priced over the watermark with the holdout credit; one statement appended per bill; totals are sums. |
| BillingHistory.RunIsPossible | apps/api/src/billing/billing-run.ts:104-139 | What a run produces satisfies the conditions the history theorems ask of a run. |
| BillingHistory.RunMovesWatermark | apps/api/src/billing/billing-run.ts:115-125 | After a run a billed merchant's watermark is the bound just stated, even on a run that billed nothing; others keep theirs. |
| BillingHistory.IncrementsTelescope | apps/api/src/billing/billing.ts:50-68 | Over any runs with non-decreasing dates, between any other entries, the increments stated add up to the movement of the watermark. |
| BillingHistory.GrossFeesBounded | packages/attribution/src/sequential.ts:436-442 | Over any n runs gross fees are the rate times that movement less what gated runs forfeited, within n/2 on both sides; forfeited is never negative, and zero if and only if no gated run raises the bound over the watermark. |
| BillingHistory.RerunBillsNothing | apps/api/src/billing/billing-run.ts:93-145 | Running again over the ledger with the statements just appended bills every merchant exactly nothing. |
| BillingHistory.NetMatchesFees | packages/billing/src/holdout-economics.ts:63-81 | Net bills plus credits are the gross fees plus all that negative fees owe back; nothing is owed if and only if no run takes the bound below the watermark by more than half a unit of fee. |
| BillingHistory.NetBilledBounded | apps/api/src/billing/billing-run.ts:127-139 | Over every history, what is collected less what is owed back is the rate times the movement of the bound less what gated runs forfeited, within n/2 on both sides. |
| DisputedBounds.WonDisputeRestoresEvidence | apps/api/src/recovery/recovery-case.service.ts:970-1025 | A dispute opened and won, with billing statements in between, leaves every merchant's observations as they were. |
| DisputedBounds.RegainedBoundBilledAgain | packages/billing/src/holdout-economics.ts:74-80 | For every ledger, statistics and dispute, and three runs in one period: the run after the dispute is won proves the bound of the run before it again, with the same gates; if the bound fell in between, the second run collects nothing, and if the gates are open the last one collects the fee on the whole fall again. |
| DisputedBounds.DisputeIsHistory | apps/api/src/billing/billing-run.ts:93-145 | The three runs around a dispute are a feasible billing history with the merchant's three bills on its account. |
| DisputeExample.RunAroundDispute | apps/api/src/billing/billing-run.ts:93-145 | On a ledger of four assigned invoices and two recoveries, the runner produces such runs on three days of one February, for the January before it. |
| DisputeExample.LostAndRegainedIsBilledTwice | packages/billing/src/holdout-economics.ts:74-80 | Every three runs around a chargeback on that ledger collect twice the net fee on the bound they end at, beyond all rounding. |
| ForfeitExample.RunGatedThenOpen | apps/api/src/billing/billing-run.ts:93-145 | On that ledger the runner produces a gated run and an open one over the same month. |
| ForfeitExample.GatedLiftIsForfeited | apps/api/src/billing/billing-run.ts:115-125 | Every two such runs end at a bound proven over a watermark of zero, the second with its gates open, and have billed none of it. |
| TieOut.ReconcileAgainstPayout | packages/attribution/src/reconciliation.ts:411-460 | Lines, totals, the three counters, the extra keys and the verdict are those of the per-key sums. |
| TieOut.EveryClaimCounted | packages/attribution/src/reconciliation.ts:442-453 | Matched, mismatched and missing add up to the distinct claimed keys, and our total to the claimed amounts. |
| TieOut.TiesOutExactly | packages/attribution/src/reconciliation.ts:455-460 | At zero tolerance it ties out if and only if every claimed key occurs in the payout with exactly the claimed sum. |
| TieOut.RowOrderDoesNotMatter | packages/attribution/src/reconciliation.ts:411-460 | Reordering either side changes no count, no total and not the verdict. |

## Left out

- Flywheel.FlywheelService.FlushBanditState: load, merge, save and restore are one atomic step of the pool; FlywheelProtocol.OverlappedFlushExact says when an overlapped flush is the same. A save that takes effect and then fails is not modelled, and the service holds the policy's state as a value.
- Flywheel.FlywheelService.LearnOnline: is handed an outcome that succeeded or failed, with its reward; a pending one changes nothing in the source. The 25th outcome's flush runs at once, where the source fires it without waiting; FlywheelProtocol.OverlappedFlushExact says when that makes no difference.
- Guardrail.RunIsCompliant: attempts are serialized, and each carries a saga-clock time; two concurrent attempts on one credential, or a wall-clock stamp, are outside the statement. The window is the count ever made, as in the code, not a rolling number of days.
- Saga.SagaDriver.RunRecoverySaga: exactly-once is stated for a processor that dedupes by key at the port; credential recovery, which may charge a second credential after a pending first one, is not part of it.
- Replays.CountedReplayHidesSuccess: the engine proposes the same retry on every run; a re-run on which it proposes something else ends short of the processor too, and is covered by Saga.SuccessHiddenIff.
- Ledger.HeadCommits: the digest is an arbitrary function of fixed length, so the statement names a collision instead of excluding one.
- Json: keys are compared by character, so surrogate pairs may order differently; numbers beyond plain integers, dates and other objects with a `toJSON` are not modelled; the ledger's key sorting also loses a key named `__proto__`.
- Uplift.ComputeBillableUplift: the confidence half-width, the square root and the sample-ratio test are parameters, so nothing is said about coverage; recovery rates and other diagnostics that are not billed are left out.
- DisputedBounds.RegainedBoundBilledAgain: the three runs share one period, as runs of one calendar month do; a dispute won in a later month is billed over that month's own cohort, of which nothing is said.
- FourInvoices: the half-width is asked only for two bounds that the documented formula meets at those standard errors; the formula itself, with its logarithm, is not part of this model.
- BillingRun.RunBilling: the period and each merchant's holdout fraction are given, not computed from calendar dates; signing, the chain check that only labels a statement, and the external charger are left out.
- Pnl.ProcessorPnl: the day, week, month and year windows of a processor's row are left out.
- Pnl.ComputePnl: the reporting currency is given; rolling windows, the daily series and the sort by fee are left out.
- TieOut.ReconcileAgainstPayout: the joined invoice ids of a line are left out.
- Observations.OutcomesInRange: reversal handlers are serialized steps, and one invoice id belongs to one merchant.
- Reversals.RunIsBalanced: amounts are non-negative, as refunds and recoveries are; the handlers do not check it.
- Floating-point rounding everywhere, and the pseudo-random generator behind the shuffle.
- The policy's choice of action and its exploration bonus, model training, feature encoding, feature store.
- Adapters, webhooks, HTTP, Temporal, NestJS modules, the dashboard, dunning messages and senders.
- SHA-256, Ed25519 and database internals beyond an append-only table with a unique number.
- Onboarding quotes, terms, dunning, the backtest world, demo seeding and report rendering: wrappers or fixtures.
