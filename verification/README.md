# PREcommunity worker: settlement, indexing and accounting

The worker of this repository keeps database tables in agreement with two contracts on a chain
that can reorganize. This project models four parts of it and proves what they promise over
whole runs: with crashes anywhere, retries, other processes in between and, where the code
allows for them, reorganizations.

1. **Click charges** (`Charge*.dfy`, `Grouping.dfy`, `Pricing.dfy`). Clicks are priced, grouped by
   stake, reserved into batches, signed, sent, reconciled, settled, rolled back and retried.
   `ChargeSteps` is the protocol as a state machine whose steps are single transactions.
   `ChargeWorker` is the worker as a class that reassigns its tables row by row; its `Valid()` says
   that what was done so far is a legal run, so the theorems about runs hold wherever it stops.
   The publication job, which shares wallets with it, is part of the protocol move by move.
   `ChargeOutcome` says, without the code, what the answers of the node make of a batch, and
   `ChargeReservation` what a reservation leaves behind, row by row.
   `ChargeHonesty` says what a true answer of the node is; `ChargeFlight`, `ChargeNonces` and
   `ChargeDedicated` prove what the wallets need of it, `ChargeTaken` compares both sides of the
   books, and `ChargeExamples` holds concrete runs.
2. **Ads indexer** (`AdsProjection.dfy`, `AdsBranch.dfy`, `AdsIndexer.dfy`). Chunks of logs are
   scanned and committed together with the checkpoint and the stake projection.
3. **Escrow indexer and accounts** (`EscrowIndexer.dfy`, `EscrowBooks.dfy`, `EscrowHandler.dfy`,
   `EscrowLedger.dfy`, `EscrowMirror.dfy`, `EscrowAccounts.dfy`, `EscrowAuthority.dfy`,
   `MonthlySchedule.dfy`). Events are claimed and handled exactly once; the accounts they keep
   mirror a ledger of what the contract itself owes.
4. **Metric flush** (`MetricFlush.dfy`). Counters move from Redis to the database exactly once.

`Chain.dfy`, `Logs.dfy` and `Branch.dfy` are shared: a block stands for its own hash, so equal hashes
have equal ancestors, and the history of the chain is the list of tips that were canonical.
`RuntimeMask.dfy` is the comparison of deployed code with reviewed code.

## Assumptions

- A database transaction is atomic; a serializable one sees nobody else's writes in between.
- A block hash determines its ancestors. `NoRevival`: a block that was dropped never becomes
  canonical again. Two lemmas show that this is needed (`RevivalWouldHideAReceipt`,
  `RevivalWouldMixBranches`). One answer of a node comes from one state of the chain.
- On one branch the market contract executes a charge id at most once, and never takes more than
  the signed request (`PossibleBranch`). Charge ids are unique in the database, as its index demands.
- The charge job and the publication job each run one at a time, beside each other; clicks are written
  by others in between.
- Only where a theorem says so: answers are true when they are given, each process reads in its own
  order, and a nonce is read under the wallet lock (`Honest`). For the charge job the order is
  proved, as part of what `ChargeWorker.Valid()` says of its log (`Timely`); what is left to the node and to the
  publication job is `TrueAnswers` (`HonestIffTrueAndTimely`). A branch holds each nonce of a wallet
  once (`NoncesMinedOnce`); the contract takes only newer prices (`PricesRise`); a block that is
  final stays (`FinalStays`), or no block is dropped at all (`OnlyGrows`).
- Clicks, revisions and flush receipts are not deleted while the workers run.
- Redis renames a key in one step, and batch ids are fresh.
- Everywhere else nodes, keystores and signing answer anything, including nothing.
- The escrow contract emits the events that `EscrowLedger.Lawful` describes; in particular
  each token settlement assigns what the period took in and carried in, after the period's own event.

## Findings

- **A finish time does not always mean that a run is finished.** Blocking or restarting a run leaves
  `finishedAt` as it was (apps/worker/src/keyword-market-charges.ts:832-840), so an automatic run
  whose batches a manual run took over, and that was closed on the way, can stand BLOCKED with a
  finish time. `StaleBlockIsReachable` is such a run in the job's own order of writes: the manual run
  is refused for gas and the automatic one, closed meanwhile, is blocked after it.
  `FinishTimesMatchIffNotStale` and `MatchedIffNeverStale` say exactly when the promise holds.
- **The publication job's error handler can put a resolved row back in flight.** The job keeps the row
  as it read it; when a later reading throws (apps/worker/src/pre-usd-price-publication.ts:207),
  the handler (lines 286-295) writes RECONCILING over the CONFIRMED that the job has written itself.
  If the same wallet has signed a charge in between, two of its rows are in flight.
  `ErrorHandlerCanClash` is such a run on a chain that only grows and with an honest node, and
  `OneInFlight` says that this write is the only way: there is at most one row in flight if and only
  if it never clashes. Both jobs demand different roles of their wallets (lines 239-243), so it
  takes a change of the contract's roles as well; with wallets that serve one journal only the
  promise holds (`DedicatedWalletsNeverClash`).
- **The escrow checkpoint does not protect against dropped blocks that it does not name.** Events claimed
  after the checkpoint stay claimed when their block is dropped. A run that goes on ends with the
  new branch's events if and only if no claimed event lies in a dropped block (`ResumedRunIff`), and
  a canonical checkpoint does not imply that (`CanonicalCheckpointHidesOrphan`). `IndexEscrow`
  therefore starts from tables of which no event was dropped, or whose checkpoint was. While it
  runs the chain may reorganize as long as blocks with their confirmations stay.

Three limits that nothing reaches today are stated exactly as well. A zero bid would stop pricing
(`AllPricedIffNoZeroBid`), but bids are written positive (apps/api/src/ads/ads-chain.adapter.ts:137),
and then each waiting click is priced (`PositiveBidsArePriced`, `ConvertPendingPrices`). A node that
reports a pending nonce it has itself seen mined could make a wallet sign a nonce twice
(`LyingPendingNonceRepeats`); nonces increase if and only if it never does (`NoncesIncreaseIff`).
Stake events delivered late would lose ages (`LateDeliveryForgetsAge`, exactly when: `AgesAgreeIff`),
but the only caller delivers them in order.

## Model

| member | source | states |
|---|---|---|
| ChargeLedger.LedgerAlwaysHolds | apps/worker/src/keyword-market-charges.ts:197-582 | after any legal run, with rollbacks and retries: a batch owes the sum of its clicks; while open all are reserved and nothing is charged; when terminal charged + shortfall = due and the click statuses say which |
| ChargeLedger.StepKeepsLedger | apps/worker/src/keyword-market-charges.ts:281-656 | each transaction of the protocol keeps the ledger invariant and finds the rows that it names |
| ChargeRuns.RunsAlwaysTruthful | apps/worker/src/keyword-market-charges.ts:658-695 | a COMPLETED or PARTIAL run has a finish time and only terminal batches, and COMPLETED none that is unpaid, through takeover and rollback |
| ChargeRuns.FinishTimesMatchIffNotStale | apps/worker/src/keyword-market-charges.ts:832-840 | a step keeps "finish time iff COMPLETED or PARTIAL" if and only if it is not a write to a run closed in the meantime |
| ChargeRuns.MatchedIffNeverStale | apps/worker/src/keyword-market-charges.ts:658-695 | over whole runs the equivalence holds in every state if and only if no write was stale |
| ChargeExamples.StaleBlockIsReachable | apps/worker/src/keyword-market-charges.ts:832-870 | a legal run, written in the job's own order, after which an automatic run is BLOCKED and has a finish time |
| ChargeCheckpoint.SeenAlwaysHolds | apps/worker/src/keyword-market-charges.ts:724-762 | every settled receipt was seen canonical no earlier than the saved checkpoint was read, through blocked passes and reorganizations in mid-pass |
| ChargeCheckpoint.IncrementalScanMissesNothing | apps/worker/src/keyword-market-charges.ts:734-753 | while the saved checkpoint is canonical, the query that skips old receipts finds every batch that the full scan would change |
| ChargeCheckpoint.CoveredReceiptIsCanonical | apps/worker/src/keyword-market-charges.ts:739-748 | a receipt at or below a canonical checkpoint is itself canonical |
| ChargeExamples.RevivalWouldHideAReceipt | apps/worker/src/keyword-market-charges.ts:727-732 | a legal run over a branch that comes back, after which the checkpoint is canonical and the incremental query misses an orphaned receipt |
| ChargeWallet.LatestNonceIsGreatest | apps/worker/src/keyword-market-wallet.ts:32-52 | the reservation's nonce is the greatest that either journal holds, and is held |
| ChargeWallet.NoncesNeverRepeat | apps/worker/src/keyword-market-wallet.ts:12-53 | the nonces ever signed for a wallet strictly increase over both journals while no row changes wallets |
| ChargeNonces.NoncesIncreaseIff | apps/worker/src/keyword-market-charges.ts:621-635 | while final blocks stay, and whatever signers change, the nonces ever signed for a wallet strictly increase if and only if each pending nonce was above the wallet's own that were mined when it was read |
| ChargeNonces.NoncesIncrease | apps/worker/src/pre-usd-price-publication.ts:244-276 | with true pending nonces no wallet ever signs a nonce twice over both journals, through signer changes and replaced rows |
| ChargeExamples.LyingPendingNonceRepeats | apps/worker/src/keyword-market-charges.ts:631-634 | the pending nonce has to be true: a legal run with otherwise true answers in which a wallet signs one nonce twice |
| ChargeFlight.OneInFlight | apps/worker/src/keyword-market-wallet.ts:16-31 | on a chain that only grows and with true answers nothing is reopened, and at most one row of both journals is ever in flight for each wallet if and only if the publication job's error handler never writes over a resolved row while another row of the wallet is in flight |
| ChargeFlight.NothingReopens | apps/worker/src/keyword-market-charges.ts:447-510 | without reorganizations no step takes a settled, failed or published row back in flight: a receipt once seen stays the answer |
| ChargeExamples.ErrorHandlerCanClash | apps/worker/src/pre-usd-price-publication.ts:286-295 | a legal run with true answers on a growing chain that leaves two rows of one wallet in flight |
| ChargeDedicated.DedicatedWalletsNeverClash | apps/worker/src/pre-usd-price-publication.ts:239-243 | where no wallet signs both charges and prices, at most one row is ever in flight for each |
| ChargeFlight.NoReorgNoRollback | apps/worker/src/keyword-market-charges.ts:447-479 | on a chain that only grows no settled batch can be rolled back |
| ChargeWallet.SentBytesWereCommitted | apps/worker/src/keyword-market-charges.ts:654-655 | bytes that are sent are those of the batch's latest signing, which is an earlier transaction |
| ChargeWallet.BytesComeFromSigning | apps/worker/src/keyword-market-charges.ts:619-653 | a batch's stored bytes are those of its latest signing |
| ChargeWallet.ResignedOnlyAfterRevert | apps/worker/src/keyword-market-charges.ts:493-506 | a batch is signed again only after its previous bytes were seen reverted in a final canonical block of the same pass |
| ChargeWallet.RevertedWasSeen | apps/worker/src/keyword-market-charges.ts:493-505 | what the worker remembers as reverted was seen so in this pass |
| ChargeBound.IdentitiesAreForever | apps/worker/src/keyword-market-charges.ts:231-271 | a click keeps its batch and price, a batch its charge id, clicks and debt, from any point of a run to any later one |
| ChargeBound.EachClickOnce | apps/worker/src/keyword-market-charges.ts:255-270 | no click belongs to two batches |
| ChargeBound.TakenWithinBatchedClicks | apps/worker/src/keyword-market-charges.ts:281-298 | what a branch took for all charges is at most the amounts of the batched clicks |
| ChargeTaken.CollectedIsTaken | apps/worker/src/keyword-market-charges.ts:281-298 | after any legal run with true events, what the batches with a receipt on a branch say was collected is exactly what the contract took for their charge ids on that branch |
| ChargeTaken.CollectedStays | apps/worker/src/keyword-market-charges.ts:447-479 | on a chain that only grows, that holds for all collected batches: each has its receipt on the branch |
| ChargeHonesty.HonestIffTrueAndTimely | apps/worker/src/keyword-market-charges.ts:722-765 | a run is honest if and only if the answers are true and the worker's readings are in order, and the order is what the worker's class keeps in every state |
| ChargeBound.DuesAreDebts | apps/worker/src/keyword-market-charges.ts:231-254 | after any legal run the dues of all batches are the amounts of their clicks |
| Allocation.Allocate | apps/worker/src/keyword-market-charges.ts:315-334 | the settlement loop splits the clicks into paid and unpaid exactly by what the charge affords oldest first |
| Allocation.SettledWithinCharge | apps/worker/src/keyword-market-charges.ts:315-334 | the settled amounts add up to no more than was charged |
| Allocation.OldestFirstPrefix | apps/worker/src/keyword-market-charges.ts:315-334 | a paid click with an amount has no unpaid older one with an amount |
| Allocation.RemainderBelowFirstUnpaid | apps/worker/src/keyword-market-charges.ts:315-334 | what is left of the charge is less than the first unpaid click |
| Allocation.AllSettleIffPaid | apps/worker/src/keyword-market-charges.ts:298-335 | all clicks settle if and only if the charge covers their sum |
| Grouping.Groups | apps/worker/src/keyword-market-charges.ts:87-96 | one group per stake in order of first appearance, each with its clicks in input order |
| Grouping.GroupsArePermutation | apps/worker/src/keyword-market-charges.ts:87-96 | no click is lost, added or grouped twice |
| Grouping.GroupDuesAddUp | apps/worker/src/keyword-market-charges.ts:231-254 | the dues of all groups sum to the debt of all clicks |
| Grouping.DueIffLargeOrOld | apps/worker/src/keyword-market-charges.ts:72-85 | a group is due if and only if it is large enough or some click of it has waited the interval |
| Grouping.GroupsAreReservable | apps/worker/src/keyword-market-charges.ts:231-271 | groups of pending debt meet what the reservation needs: one stake each, in order, disjoint |
| Pricing.ClickTable.ConvertPendingPrices | apps/worker/src/keyword-market-charges.ts:98-158 | beside other writers the paged loop ends, never throws while bids are positive and changes no amount; a row that nobody else wrote is PENDING or SETTLED by whether its amount is positive, with the snapshot as its proof, or names why it waits, and is otherwise as it was; alone, it throws if and only if there is a zero bid, and the table is one pass cut off there |
| Pricing.UnpagedOutcome | apps/worker/src/keyword-market-charges.ts:139-154 | what a pass makes of a click, said without the code: priced from the snapshot as the greatest amount its bid covers, stalled, or untouched |
| Pricing.PositiveBidsArePriced | apps/worker/src/keyword-market-charges.ts:139-154 | with positive bids each waiting click with a bid gets the amount of its bid at the price |
| Pricing.BillIsFloor | packages/shared/src/ad-charges.ts:29-39 | the amount is the greatest that the bid covers at the price |
| ChargeWorkerJob.ChargeWorker.RecordSettlement | apps/worker/src/keyword-market-charges.ts:296-336 | one transaction writes the batch, and settles its clicks oldest first as far as the charge goes; the others of them become uncollectable for want of stake |
| ChargeWorkerJob.ChargeWorker.SettleChargeReceipt | apps/worker/src/keyword-market-charges.ts:281-298 | settles, by what the event says, if and only if the acknowledgement matches the batch; otherwise nothing changes |
| ChargeWorkerJob.ChargeWorker.Rollback | apps/worker/src/keyword-market-charges.ts:457-478 | an orphaned settlement goes back to RECONCILING or PREPARED, its clicks are reserved again and its run reopened, each with the reorganization as its error |
| ChargeWorkerJob.ChargeWorker.RecordGiveUp | apps/worker/src/keyword-market-charges.ts:338-362 | one transaction gives up the batch, and all its clicks with its code |
| ChargeWorkerJob.ChargeWorker.AssertBatchCapture | apps/worker/src/keyword-market-charges.ts:364-388 | it answers an error if and only if some click of the batch is unproved by what the pass has read, and then that error; otherwise the evidence of every click is final and was seen canonical in this pass |
| ChargeOutcome.UnprovedForACause | apps/worker/src/keyword-market-charges.ts:364-388 | a click counts as proved if and only if its bid, and its price if it came from a block, name the final block that the pass read at that height; otherwise the code says what is wrong with one of them |
| ChargeWorkerJob.ChargeWorker.SettleIndexedCharge | apps/worker/src/keyword-market-charges.ts:390-438 | settles if and only if the indexed row is final, canonical and matches, by what its event says; fails exactly on a missing answer or a mismatch; otherwise the batch is as before |
| ChargeWorkerJob.ChargeWorker.ReconcileChargeBatch | apps/worker/src/keyword-market-charges.ts:440-582 | the outcome is decided by the answers: a final canonical receipt with a matching event settles with the charged amount, a reverted one fails, an unsettled batch goes back or stays, missing receipts wait, resend or throw; bytes never change, and are sent at most once and only with no receipt, an unprocessed charge and a nonce the chain has reached |
| ChargeOutcome.SettledIffAcknowledged | apps/worker/src/keyword-market-charges.ts:390-582 | a batch in flight or failed ends settled if and only if a final canonical receipt or index row acknowledges its charge, and then by exactly that event |
| ChargeOutcome.FailedIffReverted | apps/worker/src/keyword-market-charges.ts:493-506 | a batch in flight ends FAILED if and only if its receipt is final, canonical and reverted, to be tried again a minute later |
| ChargeOutcome.ThrowsForACause | apps/worker/src/keyword-market-charges.ts:480-582 | a reconciliation throws only because an answer is missing, an event does not match, the nonce has a gap, evidence is unproved or the wallet has no gas, with the code of that cause |
| ChargeWorkerJob.ChargeWorker.ReadWalletReservation | apps/worker/src/keyword-market-wallet.ts:12-53 | the queries over both journals: pending if and only if another row is in flight for the wallet; the nonce is held by a row and no row holds a greater one |
| ChargeWorkerJob.ChargeWorker.ReserveNonce | apps/worker/src/keyword-market-charges.ts:621-635 | the bytes are for the chain's pending nonce, above both journals, and for the batch's own arguments; it refuses with the code of the first thing that speaks against them, and signs if nothing does |
| ChargeOutcome.RefusedForACause | apps/worker/src/keyword-market-charges.ts:621-635 | the wallet signs if and only if it is free, its pending nonce was read and is above every nonce of both journals, and the key signs; otherwise the code says which |
| ChargeWorkerJob.ChargeWorker.PrepareBatch | apps/worker/src/keyword-market-charges.ts:584-656 | the outcome is decided by the answers: throws for a named cause only, gives up on a final missing or replaced stake, and otherwise signs, commits and sends a chargeable, unprocessed batch |
| ChargeOutcome.ChargeableIsSigned | apps/worker/src/keyword-market-charges.ts:619-656 | with proved evidence, a chargeable stake at both blocks, an unprocessed charge and nothing against the nonce, the batch holds bytes at the pending nonce, and a node that takes them leaves it SUBMITTED |
| ChargeOutcome.GivenUpIffGone | apps/worker/src/keyword-market-charges.ts:589-618 | a batch is given up if and only if its evidence is proved, its stake is gone or replaced at the newest final block and that block's hash was read, with that hash and the code that says which |
| ChargeWorkerJob.ChargeWorker.ReserveRun | apps/worker/src/keyword-market-charges.ts:197-279 | takes the eligible clicks in order, groups them, and reserves all groups for a manual run or the due ones for an automatic one, in one step; it throws, changing nothing, only if a drawn charge id is taken |
| ChargeReservation.ReservationReserves | apps/worker/src/keyword-market-charges.ts:205-276 | row by row: each group has one unsent batch that owes the sum of its clicks, or is settled if that is nothing; its clicks are reserved for it and no other click changes; a manual run takes exactly the unsent batches of unfinished automatic runs; no other run changes |
| ChargeWorkerJob.ChargeWorker.RefreshRun | apps/worker/src/keyword-market-charges.ts:658-695 | the run is finished if and only if nothing failed and all its batches are terminal and no click is awaited; COMPLETED if and only if each batch was paid; otherwise BLOCKED or RUNNING by what it waits for; its error is the failure, the missing price or the first error of its batches; no other run changes |
| ChargeSteps.FirstErrorIsFirst | apps/worker/src/keyword-market-charges.ts:679 | a run shows the error of the first of its batches that has one, and none if no batch has |
| ChargeWorkerJob.ChargeWorker.FindScan | apps/worker/src/keyword-market-charges.ts:734-753 | the query's answer is exactly the incremental or the full scan, in creation order |
| ChargeWorkerJob.ChargeWorker.ReconcilePass | apps/worker/src/keyword-market-charges.ts:722-765 | exactly the batches of the scan are reconciled in order, each by its own answers, until one throws; unless blocked, every failed batch was seen reverted and the saved checkpoint was canonical when the pass began; blocked, the checkpoint stays; it does not begin if and only if the head, the final hash or that of the checkpoint was missing; bytes never change |
| ChargeWorkerJob.ChargeWorker.ReconcileAll | apps/worker/src/keyword-market-charges.ts:755-758 | the loop gives each batch one turn in order, leaves the others alone, stops at the first exception with its code, waits if and only if some batch does, and collects the runs of the batches that did not throw |
| ChargeWorkerJob.ChargeWorker.PrepareAll | apps/worker/src/keyword-market-charges.ts:845-868 | the batches of a run that may be tried now are prepared in order, each by its own answers, until one has to be waited for or throws, or the setting is withdrawn; an orphaned proof alone does not end it |
| ChargeWorkerJob.ChargeWorker.ProcessRun | apps/worker/src/keyword-market-charges.ts:839-870 | a run is served: its due reservation, the refreshed runs that lost batches to it, its unsent batches in order, its own refresh with what failed; it is cut short only by a taken charge id |
| ChargeWorkerJob.ChargeWorker.ProcessRuns | apps/worker/src/keyword-market-charges.ts:830-872 | runs are skipped, stopped or served in turn: skipped if and only if automatic and switched off, stopped with the code of the first hard failure, served otherwise |
| ChargeWorkerJob.ChargeWorker.ProcessAdChargeJob | apps/worker/src/keyword-market-charges.ts:697-880 | wherever it stops the job has made a legal run; it refreshes the runs of the reconciled batches, works on exactly the unfinished runs or the one asked for, and on a new automatic one if and only if none is usable and some debt is due; stopped early, by readiness, the head or a reconciliation that throws, no bytes change and every run it works on is marked blocked with that code |
| ChargeChainView.ChargeChain.BlockHash | apps/worker/src/keyword-market-charges-chain.ts:105-111 | the cached hash was canonical at its height at some time of this pass, and only a block that was not answered is missing |
| ChargeChainView.FindCharge | apps/worker/src/keyword-market-charges-chain.ts:166-184 | the receipt's event is the last market log that names the charge, and there is none if no log does |
| AdsIndexer.ContractAdsChainSource.ScanChunk | apps/worker/src/ads-chain-source.ts:237-273 | what a scan returns are exactly the branch's rows of the range, in order, with the settings of the same branch; it fails only for a missing answer, a dropped or missing block or a contract that is not the expected one |
| AdsIndexer.ContractAdsChainSource.CommitChunk | apps/worker/src/ads-chain-source.ts:274-344 | it is refused if and only if the checkpoint has moved or a log is negative, and then nothing changes; otherwise the tables become the replay of the longer branch and no log is dropped as duplicate or stale |
| AdsIndexer.ContractAdsChainSource.Index | apps/worker/src/ads-chain-source.ts:170-354 | tables and checkpoint name one branch in every state; a synced run has replayed a branch canonical during the run through the finalized block, holds the settings of that block, and counts its position events; it throws only for a missing answer, another writer, a dropped block, a checkpoint beyond the chain, a contract that is not the expected one or a refused log |
| AdsIndexer.ContractAdsChainSource.AdvanceAdsIndexerState | apps/worker/src/ads-projection.ts:200-231 | the checkpoint never goes back, and settings are kept unless new ones were read |
| AdsIndexer.ContractAdsChainSource.ResetAdsProjectionAfterReorg | packages/database/src/ads-projection.ts:14-26 | clears projection, events and checkpoint together |
| AdsIndexer.ContractAdsChainSource.ContractSnapshot | apps/worker/src/ads-chain-source.ts:98-160 | seven separate reads are the settings of one branch if that branch was canonical all along |
| AdsIndexer.WholeScan | apps/worker/src/ads-chain-source.ts:237-273 | everything read between two equal readings of the last hash, with the checkpoint canonical before and after, is of one branch |
| AdsIndexer.ProjectionOfBranch | apps/worker/src/ads-projection.ts:113-134 | each stored position is exactly described by the branch's events of its stake, ages included |
| AdsIndexer.RevivalWouldMixBranches | apps/worker/src/ads-chain-source.ts:269-272 | without the no-revival rule two equal hashes can frame another branch's logs |
| AdsIndexer.FinalizedAdsBlock | apps/worker/src/ads-projection.ts:190-194 | the newest block with min(confirmations, 4) confirmations, its own block counted |
| AdsBranch.SortRestoresOrder | apps/worker/src/ads-chain-source.ts:257-267 | sorting the two event lists together gives the branch's own order |
| Branch.RowsSplit | apps/worker/src/ads-chain-source.ts:232-236 | the rows of consecutive ranges put together are the rows of the whole range |
| AdsProjection.NewestWins | apps/worker/src/ads-projection.ts:49-58 | whatever the order and repetitions, the stored values are those of the greatest block and log index |
| AdsProjection.DeliveryOrderDoesNotMatter | apps/worker/src/ads-projection.ts:99-112 | two deliveries of the same events agree on every field but the ages, the transaction included |
| AdsProjection.SinceInOrder | apps/worker/src/ads-projection.ts:113-128 | in order, amountSince is the first event of the last constant stretch and stakeSince the last opening event, both exactly |
| AdsProjection.StakesAreIndependent | apps/worker/src/ads-projection.ts:93-101 | a stored position depends on the events of its own stake only |
| AdsProjection.AgesAgreeIff | apps/worker/src/ads-projection.ts:113-134 | a delivery in any order gives the right age of the amount, or of the stake, if and only if the event that it dates from is applied where it still starts one |
| AdsProjection.LateDeliveryForgetsAge | apps/worker/src/ads-projection.ts:127-128 | a delivery out of order with another age of the amount |
| EscrowIndexer.ConfirmedHead | apps/worker/src/indexer.ts:80-86 | the newest block with the configured confirmations, once the deployment block has them |
| EscrowIndexer.EscrowIndexer.ClaimAndHandle | apps/worker/src/indexer.ts:279-300 | an event is claimed if and only if it was not claimed and its handler did not throw, and handled in the same step |
| EscrowIndexer.EscrowIndexer.IndexLogs | apps/worker/src/indexer.ts:247-306 | the loop ends with all logs of the chunk claimed in chain order, by this run or another |
| EscrowIndexer.EscrowIndexer.IndexChunk | apps/worker/src/indexer.ts:233-318 | a chunk done means everything through its end is claimed and its end is the checkpoint |
| EscrowIndexer.EscrowIndexer.CheckCheckpoint | apps/worker/src/indexer.ts:186-224 | from tables that a reorganization may have left behind, decided by now: a saved block that is not canonical clears everything, a canonical one with no event dropped changes nothing, and either way the tables are those of the chain |
| EscrowIndexer.EscrowIndexer.IndexEscrow | apps/worker/src/indexer.ts:196-320 | killed or not, beside others or not, with reorganizations short of the confirmations at any time and deeper ones before it, the claimed events are a gap-free prefix of the chain's indexable log and the projection is their fold; a synced run has left nothing out and counts what it claimed itself, from nothing when it rebuilt; it throws only for a missing answer or an event that its handler refuses, and awaits confirmations only when the deployment block lacks them |
| EscrowIndexer.EscrowIndexer.ClaimedOnceInOrder | apps/worker/src/indexer.ts:100-106 | the claimed events are without repetition and in chain order |
| EscrowIndexer.EscrowIndexer.PoisonStops | apps/worker/src/indexer.ts:279-300 | an event whose handler throws where it stands is never passed |
| EscrowIndexer.ResumedRunIff | apps/worker/src/indexer.ts:209-233 | a run that finds its checkpoint canonical and goes on behind it ends with exactly the new branch's events if and only if no claimed event lies in a dropped block |
| EscrowIndexer.ResumeIsSafeIff | apps/worker/src/indexer.ts:209-224 | the claimed events are the first of the new branch's if and only if none lies in a dropped block |
| EscrowIndexer.CanonicalCheckpointHidesOrphan | apps/worker/src/indexer.ts:209-211 | the checkpoint can be canonical while a claimed event is not |
| Logs.SortAnyOrder | apps/worker/src/indexer.ts:92-98 | sorting by block and log index restores the chain's order from any listing |
| EscrowHandler.EscrowTables.HandleDecodedEscrowEvent | apps/worker/src/event-handlers.ts:501-845 | an event that the contract emits never throws and keeps the tables in agreement with its ledger, which takes the same event: status, stop request, dates and periods included; only a release changes payouts, and only its own row; an exception leaves no trace; otherwise the expected balances move by what the event brought or took |
| EscrowHandler.EscrowTables.MatchProposal | apps/worker/src/event-handlers.ts:779-793 | finds the proposal of the release's transaction, otherwise the only candidate that names no transaction |
| EscrowMirror.EventKeepsMirror | apps/worker/src/event-handlers.ts:510-767 | no lawful event throws, and each does to the tables what it does to the contract's ledger |
| EscrowLedger.PostIsSound | apps/worker/src/event-handlers.ts:608-767 | every lawful event conserves what was paid in and keeps the ledger's dates and periods in order |
| EscrowAccounts.TablesMirrorContract | apps/worker/src/event-handlers.ts:363-845 | after any lawful stream the tables mirror the contract's ledger |
| EscrowAccounts.IndexedTablesMirrorContract | apps/worker/src/indexer.ts:279-300 | however the indexers were interrupted, the tables mirror the contract at the last claimed event |
| EscrowAccounts.MonthlyConservation | apps/worker/src/event-handlers.ts:540-577 | paid in = recipient + carry + open period, or recipient + treasury after a monthly cancellation |
| EscrowAccounts.SettledPeriodBalances | apps/worker/src/event-handlers.ts:669-716 | each settled period hands on exactly what it does not assign |
| EscrowAccounts.PeriodTimeline | apps/worker/src/event-handlers.ts:608-668 | periods 1 to n are settled end to end; n+1 alone is open unless the last was final, ends at the goal's deadline and carries in the goal's carry |
| EscrowAccounts.ReleaseCounts | apps/worker/src/event-handlers.ts:775-841 | a release raises the executed total of its goal, kind and token by exactly its amount and uses up at most one proposal |
| EscrowAccounts.ReleaseCarriesOut | apps/worker/src/event-handlers.ts:775-841 | a release ends as one executed row with its amount, recipient and transaction: a proposal of it, or a row of its own |
| EscrowAccounts.MatchedExactlyOrAlone | apps/worker/src/event-handlers.ts:784-793 | a proposal is matched by its transaction when one is, otherwise only without ambiguity |
| EscrowAccounts.ReconciliationIsFaithful | apps/worker/src/indexer.ts:343-349 | the expected balance is what came in less what was released, whatever became of proposals, promotions included |
| EscrowAccounts.PromotionKeepsTotals | apps/worker/src/safe-proposals.ts:225-260 | a planned payout that takes the place of the row its release made keeps every executed total |
| EscrowAccounts.PromotionReplaces | apps/worker/src/safe-proposals.ts:225-260 | a planned payout takes the place of the row that its release made if and only if it is still proposed and there is such a row |
| EscrowAccounts.ReconcileEscrow | apps/worker/src/indexer.ts:322-363 | reports a match if and only if the chain holds the expected balance |
| MonthlySchedule.NextIsBoundary | packages/shared/src/monthly-schedule.ts:41-55 | the next settlement is the boundary of the following month and strictly later |
| MonthlySchedule.SettlementDayDoesNotDrift | packages/shared/src/monthly-schedule.ts:52-55 | after any number of months a settlement depends on its month and the goal's day only |
| MonthlySchedule.MonthsFillTheCalendar | packages/shared/src/monthly-schedule.ts:14-22 | the month lengths, leap years included, are the differences of the closed Gregorian day count |
| MonthlySchedule.SettlementsAreAMonthApart | packages/shared/src/monthly-schedule.ts:41-55 | settlements of a goal lie 28 to 31 days apart |
| EscrowAuthority.AuthorityIsLastWord | apps/worker/src/event-handlers.ts:233-276 | an address has an authority if and only if the last change that concerns it grants it |
| EscrowAuthority.OneOwner | apps/worker/src/event-handlers.ts:245-253 | there is never more than one owner |
| EscrowAuthority.ChainAuthorities.ApplyAuthorityChange | apps/worker/src/event-handlers.ts:233-276 | decides exactly the addresses that the change concerns, all of them for an owner, by whether it grants; every other row stays with its place, and the rows stay the last word of all changes so far |
| MetricFlush.AdsMaintenance.Conservation | apps/worker/src/ads-maintenance.ts:27-95 | increments of a day = database row + active counter + batches without receipt, nothing being skipped for revisions that existed when counted |
| MetricFlush.AdsMaintenance.LifetimeIsSumOfDays | apps/worker/src/ads-maintenance.ts:81-89 | a revision's lifetime counter is the sum of its daily rows |
| MetricFlush.AdsMaintenance.RollActive | apps/worker/src/ads-maintenance.ts:30-39 | an active counter becomes a batch of its own with nothing lost, or there was none |
| MetricFlush.AdsMaintenance.Commit | apps/worker/src/ads-maintenance.ts:68-92 | counts are written if and only if the batch had no receipt, with the receipt |
| MetricFlush.AdsMaintenance.PersistBatch | apps/worker/src/ads-maintenance.ts:50-95 | beside other flushers a batch ends up written and deleted by one of them; it is reported as applied if and only if this flusher wrote it, with what it held |
| MetricFlush.AdsMaintenance.PersistAll | apps/worker/src/ads-maintenance.ts:98-105 | a scan that lists a batch twice still writes it at most once |
| RuntimeMask.NormalizedMarketRuntime | apps/worker/src/keyword-market-readiness.ts:70-92 | accepts exactly valid code and references, and zeroes exactly the covered digits |
| RuntimeMask.MaskedAlikeIff | apps/worker/src/keyword-market-readiness.ts:70-92 | masked codes are equal if and only if the codes have one length and agree outside the references |

## Left out

- The web and API applications, configuration, logging, seeding, HTTP and the queue.
- Node, database and Redis clients, keystores, gas and signatures: their answers are parameters or arbitrary.
- Click capture and `validateClickEvidence` (apps/worker/src/keyword-market-charges.ts:160-195): they appear as writes to clicks without a batch.
- The price publisher apart from its journal: which price it takes, its keystore and its broadcast.
- The branches of `prepareBatch` for a batch that another job has moved meanwhile (lines 628-629), which a single job cannot reach.
- The order in which `refreshRun` lists the batches of a run (line 660), which its query leaves open: here it is the order of creation.
- Readiness, heartbeat and the wallet balance cache of the charge settings, and the settlement transaction hash that is only displayed.
- The text of prices: the price is the number that is written as text and read back.
- The contract identity checks of the ads indexer (`verify`) and of `verifyKeywordMarketReadiness`, apart from the masking of immutable values.
- EscrowIndexer.EscrowIndexer.IndexEscrow: after a reorganization deeper than the confirmations a run starts when the new branch has confirmed a block of the checkpoint's number, and nobody else claims while tables are rebuilt; a checkpoint that hides an orphan is described by `ResumedRunIff` only.
- What the rebuild keeps: Safe proposals and the goals they name stay, as proposals that no total counts.
- EscrowMirror.EventKeepsMirror: only for events that the contract emits by `Lawful`; other streams are covered by `EscrowTables.HandleDecodedEscrowEvent` and `ReconciliationIsFaithful`.
- Sponsor profiles, slugs, metadata from IPFS, drafts of expenses, Safe proposals apart from the payouts they execute, and goal action proposals.
- Conversion of chain timestamps to calendar dates.
- Expiry of counters and of flush receipts, and the promise of SCAN to list every key that stays.
