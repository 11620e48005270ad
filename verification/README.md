# Solver bookkeeping, modelled and proved in Dafny

The solver keeps books that must stay right over whole runs, across crashes and interleaved
awaits. This project models those books and proves what they keep. Each module stands for
one component of the source; loops that update variables are methods proved against a
specification function, and objects whose methods update fields are classes.

| component | modules |
|---|---|
| balance checkpoints: samples compared with rebalances and withdrawals taken out | `CheckpointTypes`, `Rebalances`, `WithdrawalAccounting`, `Checkpoints`, and the results in `CheckpointWarnings`, `CheckpointDeferral`, `RebalanceMasking`, `CheckpointMasking`, `NoFalseAlarm`, `AttributionGains`, `QuietRuns`, `WithdrawalConservation` |
| the operator-withdrawal journal | `WithdrawalStore` |
| the duplicate-key check of a configuration document | `JsonText`, `DuplicateKeys`, `KeyOccurrences` |
| offer fills with restart recovery | `OfferFills`, `AssetOffers` |
| coin pinning and the spenders that share it | `Reservations`, `CoinSpenders`, `ArkadeWithdrawals` |
| what asset markets serve: derivation, boot repair, revert, seed | `ServingRows`, `ServingRepair`, `ServingRevert` |
| event-loop queues | `Notifier`, `BalanceSampler` |
| L1 claims of unrolled lockups | `UnrolledClaims` |
| phase latency | `Latency` |
| old environment to document and back | `ConfigTrees`, `ConfigSchema`, `ConfigExport`, `ConfigFlatten`, and the results in `ConfigViews`, `ConfigExported`, `ConfigReads`, `ConfigRoundTrip`, `ConfigMarkets` |

A run of checkpoints is a sequence of inputs, each a reading or a failed one, replayed against
the last complete checkpoint; theorems about runs quantify over all such sequences. Crashes are
prefixes of a log of every write. Awaits are turns in which other spenders, or other events, do
anything the same interfaces allow.

## Where the code does less than it is described to do

Each of these is a theorem with a concrete input, beside the exact condition under which the
description holds.

- A deferral can absorb a BTC change when a withdrawal deferral ends, its send failed, while a
  rebalance deferral is on: `CheckpointDeferral.HandBackAbsorbsALoss`, and
  `CheckpointDeferral.DeferredChangeIsZero` for the condition.
- Sequential, fully journaled rebalances can raise a false alarm in three ways: the first reading
  of all finds a transfer charged whose debit shows later (`QuietRuns.AChargedStart`); an earlier
  credit lands in the same interval as a whole later transfer (`QuietRuns.ACreditHidesAFee`); or
  several debits show at once that are not as high as authorised, so that the shares given out
  are not the debits (`QuietRuns.ManyDebitsHideAFee`). `QuietRuns.AlarmOnlyWhenShort` says exactly
  when, from the readings, the journal and what the first reading found in flight;
  `QuietRuns.OnlyAChargedStartAlarms` says which beginnings do by themselves; and
  `QuietRuns.NoAlarm` rules out any other way, given the phase of the first reading and a condition
  on each interval.
- A row can be walked back 41 times by one process, 40 deferrals and the recovery that found it:
  `AssetOffers.FortyOneWalkBacks`, `AssetOffers.WalkBacksBounded`.
- A refresh can be answered by a read that began before it: it joins a waiting turn after the
  read that turn waited for has ended and another continuation, such as the tick loop's, has begun
  the next one. No timer can fire between the end of a read and the turn, so this takes two
  continuations queued there: `BalanceSampler.LateJoin`, and `BalanceSampler.AnswersFollowCalls`
  for the condition.
- The one-time market seed can meet the unique symbol index, since it takes no symbol off first:
  `ServingRevert.SeedAfterRepairCanFail`, and `ServingRevert.SeedServing` for the condition.
- One boot repair is not always enough: `ServingRepair.OnePassOnlyNames`, and
  `ServingRepair.OnePassEnough` for the condition.
- An Arkade asset listed as BTC is exported to a document the loader refuses, and an offer market
  written with a listed symbol comes back with the asset's id: `ConfigMarkets.BitcoinAsset`,
  `ConfigMarkets.SymbolLeg`, and `ConfigRoundTrip.BitcoinRefused`, `ConfigMarkets.MarketsKept` for
  the conditions.
- The notifier's counters need room for at least one text, and its wake-up a failure hook that
  does not throw: `Notifier.NoRoomMiscounts`, `Notifier.Notifier.HookThrew`.

## Model

| member | source | states |
|---|---|---|
| `Rebalances.CompletionAllowance` | packages/solver-app/src/ops/balanceCheckpoints.ts:349-352 | the fee a completed transfer excuses is within its `feeSats`, and credit plus fee never exceed the observed debit |
| `Rebalances.AdmitRows` | packages/solver-app/src/ops/balanceCheckpoints.ts:373-393 | the loop over journal rows follows or excuses each exactly as the row-by-row specification, in journal order |
| `Rebalances.ObserveDebits` | packages/solver-app/src/ops/balanceCheckpoints.ts:394-405 | the loop over awaited transfers takes source debits out of the Arkade drop, oldest first, as specified |
| `Rebalances.SettleDone` | packages/solver-app/src/ops/balanceCheckpoints.ts:406-411 | the filter keeps what may still move money and sums the fees of what is done |
| `Rebalances.AccountRebalances` | packages/solver-app/src/ops/balanceCheckpoints.ts:361-469 | the whole accounting of one sample: missing tracked rows are an error, otherwise attribution, deferral and comparison as specified |
| `Rebalances.FirstMissing` | packages/solver-app/src/ops/balanceCheckpoints.ts:365 | reports a tracked transfer the journal no longer lists, and none exactly when all are listed |
| `Rebalances.FindMarker` | packages/solver-app/src/ops/balanceCheckpoints.ts:481-484 | the overlap marker is a charged row with overridden transfers not accounted for yet, and is found when there is one |
| `Rebalances.AppendNew` | packages/solver-app/src/ops/balanceCheckpoints.ts:426 | appending ids keeps the earlier ones in place and adds each new one |
| `WithdrawalAccounting.TrackRows` | packages/solver-app/src/ops/balanceCheckpoints.ts:602-635 | the tracking loop refreshes what is tracked and admits new rows, with the baseline and failure cases |
| `WithdrawalAccounting.ReserveRebalances` | packages/solver-app/src/ops/balanceCheckpoints.ts:639-646 | each new source debit is reserved once, with its ceiling |
| `WithdrawalAccounting.ActualDebit` | packages/solver-app/src/ops/balanceCheckpoints.ts:677-683 | a debit taken as proved is positive, within the journal's ceiling, backed by an allowance basis, and is what the wallet's history states under the transfer's own funding reference |
| `WithdrawalAccounting.MissingReserved` | packages/solver-app/src/ops/balanceCheckpoints.ts:655-659 | a reserved rebalance gone from its journal is an error exactly when every one before it is over; the check stops at the first that is not |
| `WithdrawalAccounting.Explain` | packages/solver-app/src/ops/balanceCheckpoints.ts:714-726 | the explaining pass splits tracked rows into kept, explained and dropped, with the total debit and the ids seen |
| `WithdrawalAccounting.AccountOperatorWithdrawals` | packages/solver-app/src/ops/balanceCheckpoints.ts:584-773 | the whole withdrawal accounting of one sample, with both its errors: a tracked withdrawal gone from its journal, and a reserved rebalance gone before the first one still under way |
| `CheckpointWarnings.CappedKeeps` | packages/solver-app/src/ops/balanceCheckpoints.ts:1027-1034 | the rows left open are every protected one, then the newest of the others: all rows when there are at most 20, otherwise as many as fill the list to 20, or just the protected ones when they alone exceed it |
| `CheckpointWarnings.UpsertFiles` | packages/solver-app/src/ops/balanceCheckpoints.ts:971-986 | a followed row takes the place of the first row with its key, and joins last when there is none |
| `CheckpointWarnings.BaselineIsLast` | packages/solver-app/src/ops/balanceCheckpoints.ts:778 | a sample is compared with the last complete checkpoint before it, and with none when none is complete |
| `CheckpointWarnings.ReplayAt` | packages/solver-app/src/ops/balanceCheckpoints.ts:775-1053 | record `i` of a run is what reading `i` makes of the last complete checkpoint before it, whatever is read later |
| `CheckpointWarnings.WarnedOnceRecoveredAfter` | packages/solver-app/src/ops/balanceCheckpoints.ts:190-242 | over any run: no decrease is warned twice or recovered twice, and what is recovered was warned by an earlier checkpoint |
| `CheckpointWarnings.DecreaseFate` | packages/solver-app/src/ops/balanceCheckpoints.ts:957-1051 | over any run, whichever deferrals start, end or hand over: a recorded decrease still waits or was settled once, and when it fell due it was warned if open and not cut, cut only past the limit and unprotected, silent if back |
| `CheckpointWarnings.AwaitedIsSettled` | packages/solver-app/src/ops/balanceCheckpoints.ts:990-1051 | one sample keeps an awaited decrease held or settles it |
| `CheckpointWarnings.HeldStaysOpen` | packages/solver-app/src/ops/balanceCheckpoints.ts:993-1034 | a held BTC row stays listed as open at every deferred checkpoint: the limit cannot cut it |
| `CheckpointWarnings.AccountsMoved` | packages/solver-app/src/ops/balanceCheckpoints.ts:412-468 | held ids pass from a deferral to its successor, or become the delayed ids when it ends |
| `CheckpointWarnings.InvStep` | packages/solver-app/src/ops/balanceCheckpoints.ts:957-1051 | the notice invariant survives every sample |
| `CheckpointWarnings.RunInv` | packages/solver-app/src/ops/balanceCheckpoints.ts:775-1053 | the notice invariant holds after every run |
| `CheckpointWarnings.NoticesStep` | packages/solver-app/src/ops/balanceCheckpoints.ts:190-242 | what one checkpoint warns was never warned, what it recovers was warned and never recovered |
| `CheckpointDeferral.ChangeOf` | packages/solver-app/src/ops/balanceCheckpoints.ts:946-956 | the compared BTC change of a sample in each of its three situations |
| `CheckpointDeferral.DeferredChangeIsZero` | packages/solver-app/src/ops/balanceCheckpoints.ts:946-968 | at a deferred checkpoint the BTC change is zero if and only if the sample is not a hand-back to a different anchor |
| `CheckpointDeferral.SingleKindIsZero` | packages/solver-app/src/ops/balanceCheckpoints.ts:946-968 | in a run that records only one of the two kinds of deferral, no deferred checkpoint compares a BTC change |
| `CheckpointDeferral.BothKinds` | packages/solver-app/src/ops/balanceCheckpoints.ts:421-448 | a hand-back means that a checkpoint with each kind was recorded |
| `CheckpointDeferral.FrozenWhileDeferred` | packages/solver-app/src/ops/balanceCheckpoints.ts:726-771 | while deferred, the comparison moves only by the withdrawals explained |
| `CheckpointDeferral.DeferralPostpones` | packages/solver-app/src/ops/balanceCheckpoints.ts:418-454 | the checkpoint that resolves a deferral compares the new level with the one it began at, less the withdrawals explained meanwhile |
| `CheckpointDeferral.HandBackAbsorbsALoss` | packages/solver-app/src/ops/balanceCheckpoints.ts:418-454 | a run with both kinds of deferral in which 100 sats are lost and no checkpoint records a decrease |
| `RebalanceMasking.MaskedStep` | packages/solver-app/src/ops/balanceCheckpoints.ts:361-469 | one sample keeps the bound: fees counted once per transfer, each remaining amount within its observed debit and that within the journal's |
| `RebalanceMasking.MaskedFirst` | packages/solver-app/src/ops/balanceCheckpoints.ts:378-385 | the first sample meets the bound |
| `CheckpointMasking.BoundedMasking` | packages/solver-app/src/ops/balanceCheckpoints.ts:449-455 | at every reading of a run without overlaps or withdrawals: a free comparison is the raw total plus fees excused plus what is in flight, and the fees are within the completed transfers' `feeSats` |
| `NoFalseAlarm.IntervalReadings` | packages/solver-app/src/ops/balanceCheckpoints.ts:366-371 | what an interval's readings show of sequential moves: debits on Arkade, debits less credits overall |
| `NoFalseAlarm.IntervalOutcome` | packages/solver-app/src/ops/balanceCheckpoints.ts:361-469 | one interval, however many debits, credits and completions fall in it and whatever the debits were: shares, excused fees and deferral are functions of the readings and the journal, and the accounting arrives at exactly those |
| `AttributionGains.IntervalGain` | packages/solver-app/src/ops/balanceCheckpoints.ts:366-411 | conservation over one interval: readings, excused fees and what is in flight together move exactly by shares below their credits, less fees without room, less debits left to nobody |
| `AttributionGains.LostFrom` | packages/solver-app/src/ops/balanceCheckpoints.ts:378-405 | a debit is left to nobody only from a move charged, and not yet debited, at the first reading of all |
| `AttributionGains.CalmGain` | packages/solver-app/src/ops/balanceCheckpoints.ts:386-392 | an interval in which nothing both came and went, or with nothing in flight at either end, or whose decrease covers the fees, lowers the level at most by a debit left to nobody |
| `AttributionGains.TellableGain` | packages/solver-app/src/ops/balanceCheckpoints.ts:394-411 | where at most one debit shows, or all are as authorised, every debit is attributed exactly and the level falls by the fees really paid that found no room |
| `QuietRuns.LevelIsExact` | packages/solver-app/src/ops/balanceCheckpoints.ts:449-455 | over any run of sequential moves, beginning in any phase: a comparison is free exactly when readings and journal say so, and stands at the first level plus what the intervals gained, or, put off, at its anchor |
| `QuietRuns.AlarmOnlyWhenShort` | packages/solver-app/src/ops/balanceCheckpoints.ts:957-968 | a reading of any such run reports BTC lower if and only if its comparison is free and the gains since the last comparison made are negative; both follow from the readings, the journal and what the first reading found in flight |
| `QuietRuns.LostOnlyFromCharged` | packages/solver-app/src/ops/balanceCheckpoints.ts:378-405 | over any run, only a first reading that found a move charged and not yet debited ever leaves a debit to nobody |
| `QuietRuns.NoAlarm` | packages/solver-app/src/ops/balanceCheckpoints.ts:354-469 | no reading reports BTC lower, or compares it below its first level, in a run that did not begin so and whose intervals are all calm, whatever the actual debits |
| `QuietRuns.OnlyAChargedStartAlarms` | packages/solver-app/src/ops/balanceCheckpoints.ts:378-405 | of all phases a run may begin in, the second reading of the same move alarms if and only if the first found it charged and its debit now shows, or it is over and cost something |
| `QuietRuns.TellableLevel` | packages/solver-app/src/ops/balanceCheckpoints.ts:449-455 | over a run whose debits can be told apart, the gains are exactly minus the fees really paid that no interval had room for |
| `QuietRuns.BtcReported` | packages/solver-app/src/ops/balanceCheckpoints.ts:957-968 | BTC is reported lower exactly when its comparison is free and fell |
| `QuietRuns.AChargedStart` | packages/solver-app/src/ops/balanceCheckpoints.ts:378-385 | a run beginning with a move charged, whose debit raises a false alarm |
| `QuietRuns.ACreditHidesAFee` | packages/solver-app/src/ops/balanceCheckpoints.ts:386-392 | two sound journaled moves whose last reading raises a false alarm |
| `QuietRuns.ManyDebitsHideAFee` | packages/solver-app/src/ops/balanceCheckpoints.ts:386-405 | three sound journaled moves, no interval short of room for the fees really paid, whose last reading raises a false alarm |
| `WithdrawalStore.Journal.Create` | packages/solver-app/src/admin/db.ts:688-714 | a withdrawal starts preparing, with no fee and no reference; zero amounts and known ids are refused |
| `WithdrawalStore.Journal.CompareAndSwap` | packages/solver-app/src/admin/db.ts:735-739 | the update takes only where the row is still in the state it was decided from |
| `WithdrawalStore.Journal.Transition` | packages/solver-app/src/admin/db.ts:719-743 | a transition succeeds exactly on a legal edge from the row's state, with fee and reference before `sent` |
| `WithdrawalStore.SwapSeesWhatItRead` | packages/solver-app/src/admin/db.ts:727-738 | a row found in the same state again is the row that was read, whatever others did between |
| `WithdrawalStore.LifeOfARow` | packages/solver-app/src/admin/db.ts:234-240 | along any life of a row: preparing carries no fee or reference, sent carries both, ids and amounts never change |
| `WithdrawalConservation.TogetherOrNone` | packages/solver-app/src/ops/balanceCheckpoints.ts:705-726 | a proved sample explains exactly its live withdrawals, another none |
| `WithdrawalConservation.SettledStep` | packages/solver-app/src/ops/balanceCheckpoints.ts:602-635 | no id dealt with is explained again, and none is forgotten |
| `WithdrawalConservation.SampleConserves` | packages/solver-app/src/ops/balanceCheckpoints.ts:636-706 | what a sample explains with the rebalance debits proved is within the drop of its window, which resets with it |
| `WithdrawalConservation.HistoryPaysOnce` | packages/solver-app/src/ops/balanceCheckpoints.ts:655-706 | a proved sample's debits are sums of settled rows of the wallet's history, no row used twice |
| `WithdrawalConservation.ExplainedWithinLost` | packages/solver-app/src/ops/balanceCheckpoints.ts:599-771 | over any run all explained debits and the rebalance debits set against them are within what the Arkade balance lost |
| `WithdrawalConservation.ExplainedAtSample` | packages/solver-app/src/ops/balanceCheckpoints.ts:599-771 | after any run, the next sample recorded explains all its live withdrawals or none, each for the first time, within the drop since the last reset less the proved rebalance debits |
| `JsonText.DecodeRaw` | packages/solver-app/src/config/load.ts:42 | decoding what a string is written as gives back what it means (section 7 of RFC 8259) |
| `DuplicateKeys.StringRead` | packages/solver-app/src/config/load.ts:37-48 | a written string ends at its own closing quote and reads as what it means |
| `DuplicateKeys.ValueScanned` | packages/solver-app/src/config/load.ts:31-60 | on the text of any value the scanner reports that value's first repeat or goes on after it |
| `DuplicateKeys.DocumentScanned` | packages/solver-app/src/config/load.ts:31-60 | on any JSON text the scanner answers with the first repeat of the tree it derives |
| `DuplicateKeys.EndOfString` | packages/solver-app/src/config/load.ts:37-38 | the loop over a string stops at its closing quote |
| `DuplicateKeys.RepeatedKey` | packages/solver-app/src/config/load.ts:31-60 | the scanner ends on every JSON text and answers the tree's first repeat |
| `KeyOccurrences.FirstInTextOrder` | packages/solver-app/src/config/load.ts:30-60 | that repeat is the first key, in text order, that its own object held before; array positions do not show in its path |
| `KeyOccurrences.RepeatWhenClash` | packages/solver-app/src/config/load.ts:45 | there is one exactly when some object at any depth holds two members with equal decoded names |
| `KeyOccurrences.AnswerMeans` | packages/solver-app/src/config/load.ts:31-60 | both together, for the scanner's answer |
| `OfferFills.StepSafe` | packages/solver-corridors/src/db/offerFills.ts:300-364 | every write of the store, by whichever process, keeps each row submitted at most once and each outpoint with one live row |
| `OfferFills.NoDoubleFill` | packages/solver-corridors/src/db/offerFills.ts:51-64 | at every moment of any run with crashes: no intent is submitted twice, one live intent an outpoint, and one that may have been submitted is never fillable again |
| `OfferFills.OneSubmissionWhileLive` | packages/solver-corridors/src/db/offerFills.ts:51-64 | two live intents over one outpoint are one and the same, submitted at most once |
| `OfferFills.CrashAndReopen` | packages/solver-app/src/ops/assetOffers.ts:441-451 | a crash after any write continues the same run: the dead process's latches vanish |
| `OfferFills.LogsJoin` | packages/solver-app/src/ops/assetOffers.ts:441-451 | the next process's log runs on from there |
| `OfferFills.OfferFillStore.InsertIntent` | packages/solver-corridors/src/db/offerFills.ts:208-233 | an intent is recorded exactly when its id is new and its outpoint has no live row |
| `OfferFills.OfferFillStore.FindLiveByOutpoint` | packages/solver-corridors/src/db/offerFills.ts:245-251 | finds the live row of an outpoint exactly when there is one |
| `OfferFills.OfferFillStore.ListNonTerminal` | packages/solver-corridors/src/db/offerFills.ts:280-287 | lists the rows still to resolve, oldest first |
| `OfferFills.OfferFillStore.Transition` | packages/solver-corridors/src/db/offerFills.ts:300-323 | compare-and-swap on the state; the caller learns whether it moved the row |
| `OfferFills.OfferFillStore.RevertUnsubmitted` | packages/solver-corridors/src/db/offerFills.ts:335-346 | walks back exactly a row whose attempt is still selecting |
| `OfferFills.OfferFillStore.MarkSubmitting` | packages/solver-corridors/src/db/offerFills.ts:353-360 | the latch is won exactly once a claim |
| `AssetOffers.PricingFor` | packages/solver-app/src/ops/assetOffers.ts:246-252 | the first market that prices the terms, or none does |
| `AssetOffers.AssetOfferService.ReplaceMarkets` | packages/solver-app/src/ops/assetOffers.ts:202-207 | swaps the live list and touches no recorded intent |
| `AssetOffers.AssetOfferService.Consider` | packages/solver-app/src/ops/assetOffers.ts:300-340 | an outpoint with a live row is not opened again; otherwise the first refusal in order, or an intent with the terms considered |
| `AssetOffers.AssetOfferService.Settle` | packages/solver-arkade/src/arkade/offerFulfill.ts:84-182 | nothing is submitted without winning the latch right before |
| `AssetOffers.AssetOfferService.Attempt` | packages/solver-app/src/ops/assetOffers.ts:395-435 | one fillable row through price, approval, claim and settlement, to exactly one outcome |
| `AssetOffers.AssetOfferService.RecoverFilling` | packages/solver-app/src/ops/assetOffers.ts:443-451 | a row left filling walks back only when it had not reached the latch |
| `AssetOffers.AssetOfferService.TickAll` | packages/solver-app/src/ops/assetOffers.ts:386-437 | a sweep moves each row, its submissions and its walk-backs exactly as its own answers say, and counts what it filled |
| `AssetOffers.WalkBacksBounded` | packages/solver-app/src/ops/assetOffers.ts:150-155 | in one process a row is walked back at most 40 times after a deferral, once more when found left behind, and submitted at most once |
| `AssetOffers.FortyOneWalkBacks` | packages/solver-app/src/ops/assetOffers.ts:415-451 | both at once: 41 walk-backs in one process, after which the row is given up |
| `Reservations.ReservationLedger.Reserve` | packages/solver-arkade/src/arkade/reservations.ts:44-57 | a reservation adds its pins and hands out a release of its own |
| `Reservations.ReservationLedger.Release` | packages/solver-arkade/src/arkade/reservations.ts:48-56 | a release frees exactly its own pins, and called again does nothing |
| `Reservations.ReservationLedger.Reserved` | packages/solver-arkade/src/arkade/reservations.ts:58-60 | a coin is pinned exactly while some unreleased reservation holds it |
| `CoinSpenders.Wallet.PinInputs` | packages/solver-app/src/ops/pool.ts:112-119 | pins all or none: none exactly when one of them is held already |
| `CoinSpenders.Wallet.Await` | packages/solver-app/src/ops/pool.ts:107-110 | whatever others pin and release during an await, a spender keeps its pins and live reservations stay apart |
| `CoinSpenders.Wallet.SpendPinned` | packages/solver-app/src/ops/pool.ts:214-248 | a spend with named inputs spends exactly coins it holds alone and leaves no pin behind on any exit |
| `CoinSpenders.Wallet.MintPool` | packages/solver-app/src/ops/pool.ts:184-250 | the halving retry ends after at most six spends, each naming at most half the coins of the one before, and every exit releases every pin |
| `CoinSpenders.Wallet.ResplitFloat` | packages/solver-app/src/ops/pool.ts:262-278 | one pinned split, its pins released on every exit |
| `CoinSpenders.Wallet.SettleRenewal` | packages/solver-app/src/ops/float.ts:345-358 | a renewal yields to a funding that pinned a coin since it chose, and otherwise settles coins it holds alone |
| `CoinSpenders.Wallet.FundFrom` | packages/solver-arkade/src/arkade/offerFulfill.ts:107-182 | a funding or fill picks only free coins and pins them in the same step, so its pick is never refused |
| `CoinSpenders.NobodyElseHolds` | packages/solver-arkade/src/arkade/reservations.ts:5-9 | no input of a spend is held by another reservation |
| `CoinSpenders.SixTries` | packages/solver-app/src/ops/pool.ts:188-245 | halving from 50 inputs allows six tries |
| `ArkadeWithdrawals.Judge` | packages/solver-app/src/ops/arkadeFunds.ts:221-240 | a quote is paid exactly when its amount is what was asked and its change is none or within the rail's bounds |
| `ArkadeWithdrawals.SelectInputs` | packages/solver-app/src/ops/arkadeFunds.ts:201-243 | the selection loop ends; an accepted quote is the first that did not ask for another coin, over 1 to 50 distinct pinned coins |
| `ArkadeWithdrawals.ArkadeWithdraw` | packages/solver-app/src/ops/arkadeFunds.ts:181-268 | whatever others do while quotes are awaited, the send announced or under way: what is sent has 1 to 50 distinct inputs summing to quoted total plus change within bounds, pays the amount asked, and every exit releases every pin |
| `ServingRows.ServingFor` | packages/solver-app/src/ops/assetRfqMarkets.ts:209-230 | derived fields take no symbol already taken, and RFQ on means a symbol and an open direction |
| `ServingRows.DerivedApart` | packages/solver-app/src/ops/assetRfqMarkets.ts:209-230 | fields derived row by row have distinct symbols and are coherent |
| `ServingRows.MarketTable.Update` | packages/solver-app/src/admin/db.ts:156-160 | a statement is refused exactly when it would break the unique symbol index |
| `ServingRepair.OpensNothing` | packages/solver-app/src/admin/db.ts:433-462 | the repair never turns RFQ on, never moves a direction or an offer, and never renames |
| `ServingRepair.RepairKeepsUnique` | packages/solver-app/src/admin/db.ts:435-453 | symbols are unique after each of its statements |
| `ServingRepair.FixedWhenCoherent` | packages/solver-app/src/admin/db.ts:437-457 | it leaves the table alone exactly when every RFQ-serving row has one asset leg, a symbol and an open direction |
| `ServingRepair.OnePassEnough` | packages/solver-app/src/admin/db.ts:443-457 | one pass settles the table if and only if it named no row whose directions were both closed |
| `ServingRepair.OnePassOnlyNames` | packages/solver-app/src/admin/db.ts:443-457 | a table of one row that a first pass leaves with RFQ on and no direction open, and a second one closes |
| `ServingRepair.DefaultsNeedOnePass` | packages/solver-app/src/admin/db.ts:418-432 | with the column defaults one pass settles it |
| `ServingRepair.TwoPassesEnough` | packages/solver-app/src/admin/db.ts:433-462 | two passes always settle it |
| `ServingRepair.RepairServing` | packages/solver-app/src/admin/db.ts:433-462 | the repair, statement by statement, reaches the specified table |
| `ServingRevert.PlanRevert` | packages/solver-app/src/admin/revert.ts:41-99 | the planning loop derives each row with the symbols taken so far |
| `ServingRevert.GoalUnique` | packages/solver-app/src/admin/revert.ts:48-62 | what a revert leads to has unique symbols and every planned row coherent |
| `ServingRevert.PlanLeads` | packages/solver-app/src/admin/revert.ts:58-76 | the plan is exactly what separates the rows from that goal |
| `ServingRevert.MidwayUnique` | packages/solver-app/src/admin/db.ts:507-526 | however far its statements have come, no symbol is carried twice |
| `ServingRevert.RevertToConfig` | packages/solver-app/src/admin/db.ts:501-529 | the transaction meets the unique index at no statement and ends at the goal |
| `ServingRevert.ApplyPlan` | packages/solver-app/src/admin/revert.ts:41-99 | planning and applying leads to what the configuration implies, through unique symbols only |
| `ServingRevert.PlanAgainIsEmpty` | packages/solver-app/src/admin/revert.ts:55-87 | planning the same scope again changes nothing |
| `ServingRevert.RevertibleAlone` | packages/solver-app/src/admin/revert.ts:95-97 | a market is listed as revertible alone exactly when the plan for it alone changes something |
| `ServingRevert.SeedServing` | packages/solver-app/src/admin/db.ts:391-415 | the one-time seed fails, leaving nothing behind, exactly when a later row still carries a symbol an earlier one is given |
| `ServingRevert.FreshColumnsSeed` | packages/solver-app/src/admin/db.ts:387-390 | with the column defaults it never fails |
| `ServingRevert.SeedAfterRepairCanFail` | packages/solver-app/src/admin/db.ts:378-381 | rows named by the repair of an opening without the seed can make a later seeding fail |
| `Notifier.LimitNotification` | packages/solver-app/src/ops/notify.ts:40-45 | a notice is cut to 4000 characters, and only when it is longer |
| `Notifier.Deliver` | packages/solver-app/src/ops/notify.ts:60-74 | delivery succeeds exactly when one of the attempts would, and stops there |
| `Notifier.Notifier.Post` | packages/solver-app/src/ops/notify.ts:104-112 | posting never calls a sink, drops at most the oldest, and keeps every waiting text scheduled |
| `Notifier.Notifier.StartDrain` | packages/solver-app/src/ops/notify.ts:90-101 | the scheduled microtask takes the first text in hand |
| `Notifier.Notifier.Delivered` | packages/solver-app/src/ops/notify.ts:76-86 | each text is counted sent or failed once, in posting order, and the next is taken |
| `Notifier.Notifier.FlushMayReturn` | packages/solver-app/src/ops/notify.ts:114-119 | `flush` returns only when nothing waits and nothing is in hand |
| `Notifier.Notifier.HookThrew` | packages/solver-app/src/ops/notify.ts:66-69 | a throwing failure hook loses the wake-up exactly when something still waited |
| `Notifier.NoRoomMiscounts` | packages/solver-app/src/ops/notify.ts:106-109 | with a queue of no room the counters disagree from the first post |
| `BalanceSampler.Sampler.Sample` | packages/solver-app/src/ops/businessEvents.ts:82 | a timer never stacks a second read |
| `BalanceSampler.Sampler.Refresh` | packages/solver-app/src/ops/businessEvents.ts:83-91 | calls share the waiting turn |
| `BalanceSampler.Sampler.RunTurn` | packages/solver-app/src/ops/businessEvents.ts:85-89 | the turn answers every call that shares it with the read under way or a new one; that read began before a call exactly when the call saw it under way and it is not the one the turn waited for |
| `BalanceSampler.Sampler.EndRead` | packages/solver-app/src/ops/businessEvents.ts:59-78 | a failed or absent side keeps its sample, and sample times never go back |
| `BalanceSampler.AnswersFollowCalls` | packages/solver-app/src/ops/businessEvents.ts:27-28 | a refresh is answered by a read begun after it, except exactly when it saw a read under way that is not the one its turn waits for and that still was when the turn ran |
| `BalanceSampler.LateJoin` | packages/solver-app/src/ops/businessEvents.ts:83-91 | a refresh answered by a read that began before it, while the first caller of that turn is answered by one begun after it |
| `UnrolledClaims.SwapRow.Keep` | packages/solver-corridors/src/unrolledSpendStep.ts:71-75 | a step is kept in memory first, then in the row; a patch that throws leaves the row as it was |
| `UnrolledClaims.SwapRow.DriveOne` | packages/solver-corridors/src/unrolledSpendStep.ts:80-91 | one output's error is caught and changes no other output's step |
| `UnrolledClaims.SwapRow.Advance` | packages/solver-corridors/src/unrolledSpendStep.ts:54-101 | every tracked output not confirmed is driven exactly once, whatever happened before it, and the result says exactly what the kept steps amount to |
| `UnrolledClaims.SwapRow.Settle` | packages/solver-corridors/src/unrolledSpendStep.ts:104-118 | a row still claiming becomes `claimed` exactly when every tracked output is confirmed and `stuck` exactly when one is lost and none is still out; a row moved meanwhile stays as it is, and the answer says whether it was claimed here |
| `UnrolledClaims.NothingDropped` | packages/solver-corridors/src/unrolledSpendStep.ts:62-65 | between any two moments, crashes included, a persisted claim stays tracked and a confirmed one stays confirmed |
| `UnrolledClaims.DrivenWho` | packages/solver-corridors/src/unrolledSpendStep.ts:77-83 | a tick drives each output at most once, and exactly those not confirmed |
| `Latency.NearestRank` | packages/solver-app/src/ops/latency.ts:61-62 | a quantile is a duration that occurred, with nearest-rank position |
| `Latency.StatsOrdered` | packages/solver-app/src/ops/latency.ts:64-73 | p50, p95 and max are in order and occurred, and max is the largest |
| `Latency.GroupBySwap` | packages/solver-app/src/ops/latency.ts:84-91 | events without notes, grouped by swap in order of first appearance |
| `Latency.SummariseLatency` | packages/solver-app/src/ops/latency.ts:84-123 | one row of figures for each phase, over exactly its durations, and the end-to-end figures |
| `Latency.Telescopes` | packages/solver-app/src/ops/latency.ts:96-111 | one swap's phases add up to its end-to-end time |
| `Latency.DurationsConserved` | packages/solver-app/src/ops/latency.ts:84-123 | all phase durations add up to all end-to-end times, and there is one for each event beyond the first of its swap |
| `ConfigTrees.PutGet` | packages/solver-app/src/config/fromEnv.ts:61-65 | what is written at a path is read back there |
| `ConfigTrees.PutElsewhere` | packages/solver-app/src/config/fromEnv.ts:61-65 | and is not seen at any path apart from it |
| `ConfigTrees.PutKeys` | packages/solver-app/src/config/fromEnv.ts:61-65 | writing below a block adds at most one key to it, last, so a block keeps the order its keys were first written in |
| `ConfigTrees.EncodeDecode` | packages/solver-app/src/config/fromEnv.ts:47-59 | a value in canonical form is written back as it was |
| `ConfigTrees.JoinSplit` | packages/solver-app/src/config/knobs.ts:150 | joining the separated parts gives the text back |
| `ConfigSchema.SlotPlaced` | packages/solver-app/src/config/fromEnv.ts:38-49 | every setting's path leads through the document's shape to the leaf that holds it, and gives the type its text is decoded by |
| `ConfigSchema.SlotsApart` | packages/solver-app/src/config/knobs.ts:35-93 | no setting's path leads through another's |
| `ConfigExport.EnvToDocument` | packages/solver-app/src/config/fromEnv.ts:67-169 | the export loops build the specified document, or refuse a bad list or a direction no stored row carries |
| `ConfigExport.ExportTokens` | packages/solver-app/src/config/fromEnv.ts:100-118 | each ERC-20 token opens the chain if need be, is labelled, and sets its two corridors' terms |
| `ConfigExport.ExportAssets` | packages/solver-app/src/config/fromEnv.ts:120-152 | each Arkade asset is labelled and its directions set by their own names, then by the old ones its stored row explains |
| `ConfigExported.DocumentView` | packages/solver-app/src/config/fromEnv.ts:67-169 | an exported document shows, at every place, what the environment says of it, and nothing elsewhere |
| `ConfigExported.DocumentTidy` | packages/solver-app/src/config/fromEnv.ts:67-169 | it names the listed tokens and assets in order, no chain but the environment's, and no corridor or term it does not serve |
| `ConfigFlatten.DocumentToKnobs` | packages/solver-app/src/config/knobs.ts:163-277 | the flattening loops build the specified settings, or the first refusal |
| `ConfigFlatten.FlattenAssets` | packages/solver-app/src/config/knobs.ts:184-214 | assets are read in order; a bad label, bitcoin's symbol, a shared symbol and an unknown chain are refused |
| `ConfigReads.ReadAssetsAt` | packages/solver-app/src/config/knobs.ts:184-214 | assets with symbols of their own are read as they are, unless one takes bitcoin's symbol |
| `ConfigReads.SetCorridorsAt` | packages/solver-app/src/config/knobs.ts:240-260 | a named corridor is on unless its terms say otherwise, its terms are taken, and nothing else changes |
| `ConfigRoundTrip.PlainKept` | packages/solver-app/src/config/knobs.ts:171 | a setting at a fixed path comes back as the environment has it, under its id or the name it had, and unset when unset |
| `ConfigRoundTrip.ChainKept` | packages/solver-app/src/config/knobs.ts:173-178 | so does every setting of the chain |
| `ConfigRoundTrip.TermKept` | packages/solver-app/src/config/fromEnv.ts:91-152 | so does every term of a served corridor, an asset's directions by whichever name they had; an unset `enabled` stays on |
| `ConfigRoundTrip.AssetSettingsKept` | packages/solver-app/src/config/knobs.ts:203-213 | so do the feeds of each token and the threshold of each asset |
| `ConfigRoundTrip.ListsKept` | packages/solver-app/src/config/knobs.ts:215-216 | the lists of tokens and of assets come back entry by entry, in order |
| `ConfigRoundTrip.BitcoinRefused` | packages/solver-app/src/config/knobs.ts:192-194 | an exported document is refused exactly when an Arkade asset is listed as BTC |
| `ConfigMarkets.BitcoinAsset` | packages/solver-app/src/config/knobs.ts:192-194 | an environment that is exported to a document the loader refuses |
| `ConfigMarkets.MarketsKept` | packages/solver-app/src/config/fromEnv.ts:154-167 | the offer markets come back exactly when no leg was written as a listed symbol |
| `ConfigMarkets.SymbolLeg` | packages/solver-app/src/config/knobs.ts:262-271 | a canonical environment whose offer markets do not come back as they were |

## Left out

- Outside the configuration, identifiers, references, assets, symbols and transaction ids are naturals, since only equality of them is used; sats are naturals, and a reading or row that is not non-negative safe sats makes its sample an incomplete one.
- Network, chain and wallet reads, SQL text, relay transport and timers are inputs or step triggers; message wording and number formatting are not modelled, only which rows a notice names.
- Checkpoint deferrals: their start and reminder times, and the flag that only chooses a reminder's wording, are not modelled; the scope of a run is fixed, and journal cursors are part of each reading.
- BoundedMasking: assumes the journal goes on listing what it listed, no overlapping rebalances and no withdrawals; the bound says nothing of runs with those.
- LevelIsExact: one transfer at a time, all Arkade-sourced and each within what its journal row authorises and quotes, with no operator withdrawals; overlapping rebalances and other movements of the balance are not covered, and neither are they by AlarmOnlyWhenShort and NoAlarm.
- NoAlarm: its condition is sufficient, not necessary; where an interval is not calm, gains of other intervals may still make up for it, as AlarmOnlyWhenShort says exactly.
- DeferralPostpones: covers runs in which no hand-back happens; what happens at one is stated by DeferredChangeIsZero.
- ExplainedAtSample: a history row is used once within a sample; that two samples never use one row rests on references being unique, which the journal does not enforce.
- RepeatedKey: the text is a JSON text, which the loader has established by parsing it first; the byte-order mark and the error message are not modelled.
- AssetOfferService: the feed's comparison, the approval gate, coin selection and the guards above it are inputs; within one sweep no other process writes the store, while the theorems on store steps let any number write at any time.
- OfferFillStore: the RFQ id, timestamps, failure reasons and event rows are not modelled.
- Wallet: signer migration and the SDK's own sweep choose their inputs themselves, and the rebalance routes pin rows again without checking; these spenders are not part of this model. The pool planner is an input that respects its input cap.
- ArkadeWithdraw: the address checks and the router are not modelled; a quote is an input.
- PlanRevert: the digest that guards an apply against a changed state, and the shown values of each change, are not modelled.
- SeedServing: the marker that makes it run once is not modelled.
- RepairServing: its notes are not modelled.
- Notifier: sinks are one delivery result, and back-off times are not modelled.
- SwapRow: the receive leg's step and the leftover checks are not modelled; the order in which tracked outputs are listed is an input.
- SummariseLatency: the display order of phases is not modelled, and ranks are exact where the source multiplies by 0.95 in floating point.
- EnvToDocument: a registered rail's own block is not modelled; a setting at a fixed path is named by its place, and an id built from an asset's symbol by a constructor, so that different ids are different strings is taken from the tables. Numbers are plain ones with or without decimals: a sign, an exponent or another base is kept as text.
- DocumentToKnobs: the map from settings back to paths and the character test of labels are not modelled.
- SetAt: walks and rebuilds values by recursion where the source writes into nested objects in place.
- Serving of RFQ markets beyond their rows (readable markets, union of bounds), profit reports and the admin routes are not modelled.
