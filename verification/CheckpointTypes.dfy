/**
 * What a balance checkpoint persists, and the journals one is computed from.
 *
 * Transfers, withdrawals, transactions and assets are named by naturals: only
 * equality of their identifiers is ever used. Sats are naturals, since a journal
 * row or a reading that is not non-negative sats makes its sample incomplete.
 */
module CheckpointTypes {
  import opened Util

  type Id = nat
  type Reference = nat

  datatype TransferState =
    Quoted | Submitting | Pending | NeedsReconciliation | Completed | Refunded | Failed | Cancelled

  /** One row of the rebalance journal. `debitSats` is the authorised ceiling of the source debit. */
  datatype Transfer = Transfer(
    id: Id,
    chargedAt: Option<nat>,
    updatedAt: nat,
    debitSats: nat,
    feeSats: nat,
    creditedSats: Option<nat>,
    state: TransferState,
    fundingTxid: Option<Reference>,
    overridePendingIds: seq<Id>)

  datatype WithdrawalState = Preparing | Sending | Uncertain | Sent | FailedWithdrawal

  /** One row of the operator-withdrawal journal, and the copy of it a checkpoint tracks. */
  datatype Withdrawal = Withdrawal(
    id: Id,
    amountSats: nat,
    feeSats: Option<nat>,
    reference: Option<Reference>,
    state: WithdrawalState)

  /** One row of the wallet's history; `amount` is `None` when it is not non-negative safe sats. */
  datatype HistoryRow = HistoryRow(
    arkTxid: Reference,
    commitmentTxid: Reference,
    sent: bool,
    amount: Option<nat>,
    settled: bool)

  datatype Asset = Btc | ArkadeAsset(id: Id)

  datatype Decrease = Decrease(asset: Asset, before: int, after: int, uncertainFeeAllowanceSats: nat)

  /** One asset seen falling at a checkpoint, and the level that ends the matter when it is reached again. */
  datatype Followed = Followed(checkpointId: nat, asset: Asset, before: int, uncertainFeeAllowanceSats: nat)

  /** A rebalance whose source debit or whose final state is still awaited. */
  datatype Held = Held(
    id: Id,
    chargedAt: nat,
    debitObserved: bool,
    observedDebitSats: nat,
    remainingSats: nat)

  /** While present, the BTC comparison stays at the anchor and BTC notices are held. */
  datatype RebalanceDeferral = RebalanceDeferral(
    anchorCheckpointId: nat,
    anchorComparisonTotalSats: int,
    transferIds: seq<Id>,
    overrideId: Option<Id>,
    heldBtcDecreaseIds: set<nat>,
    heldBtcWarnings: seq<Followed>)

  datatype Rebalance = Rebalance(
    version2: bool,
    comparisonTotalSats: int,
    feeAllowanceUsedSats: int,
    uncertainFeeAllowanceSats: nat,
    accountedOverrideIds: set<Id>,
    seenIds: set<Id>,
    pending: seq<Held>,
    attributionDeferred: Option<RebalanceDeferral>,
    delayedBtcWarningIds: set<nat>)

  datatype WithdrawalDeferral = WithdrawalDeferral(
    anchorCheckpointId: nat,
    heldBtcDecreaseIds: set<nat>,
    heldBtcWarnings: seq<Followed>)

  datatype Explained = Explained(id: Id, reference: Reference, debitSats: nat)

  datatype Withdrawals = Withdrawals(
    comparisonTotalSats: int,
    seenIds: set<Id>,
    observedSourceDropSats: nat,
    rebalanceReservedSats: nat,
    rebalanceIds: seq<Id>,
    rebalanceAllowanceBasis: map<Id, nat>,
    pending: seq<Withdrawal>,
    deferred: Option<WithdrawalDeferral>,
    delayedBtcWarningIds: set<nat>,
    explained: seq<Explained>)

  datatype AssetBalance = AssetBalance(id: Id, amount: nat)

  /** A complete checkpoint: the only kind a later sample is compared with. */
  datatype Checkpoint = Checkpoint(
    id: nat,
    startedAt: nat,
    arkadeSats: nat,
    assets: seq<AssetBalance>,
    totalSats: nat,
    previousId: Option<nat>,
    drops: seq<Decrease>,
    recovered: seq<Followed>,
    unrecovered: seq<Followed>,
    rebalance: Option<Rebalance>,
    withdrawals: Option<Withdrawals>)

  /** The rows a deferral starting right after `c` holds: its BTC decrease, due now. */
  function DueBtcRows(c: Checkpoint): (r: seq<Followed>) {
    FollowedFrom(c.id, Filter(c.drops, (d: Decrease) => d.asset == Btc))
  }

  function DueBtcIds(c: Checkpoint): set<nat> {
    if exists d :: d in c.drops && d.asset == Btc then {c.id} else {}
  }

  function FollowedFrom(checkpointId: nat, ds: seq<Decrease>): (r: seq<Followed>)
    ensures |r| == |ds|
    ensures forall i :: 0 <= i < |ds| ==>
      r[i] == Followed(checkpointId, ds[i].asset, ds[i].before, ds[i].uncertainFeeAllowanceSats)
  {
    seq(|ds|, i requires 0 <= i < |ds| =>
      Followed(checkpointId, ds[i].asset, ds[i].before, ds[i].uncertainFeeAllowanceSats))
  }

  /** A row that may still move money: its debit or credit can yet appear. */
  predicate IsPending(row: Transfer) {
    row.state == Submitting || row.state == Pending || row.state == NeedsReconciliation
  }

  predicate IsTerminal(row: Transfer) {
    !IsPending(row) && row.state != Quoted
  }

  /** The journal row filed under `id`, if the journal lists one. */
  function Lookup(rows: seq<Transfer>, id: Id): (r: Option<Transfer>)
    ensures r.Some? ==> r.value in rows && r.value.id == id
    ensures r.None? ==> forall row :: row in rows ==> row.id != id
  {
    if rows == [] then None
    else if rows[|rows| - 1].id == id then Some(rows[|rows| - 1])
    else Lookup(rows[..|rows| - 1], id)
  }

  ghost predicate DistinctTransfers(rows: seq<Transfer>) {
    forall i, j :: 0 <= i < j < |rows| ==> rows[i].id != rows[j].id
  }

  lemma {:induction false} LookupDistinct(rows: seq<Transfer>, row: Transfer)
    requires DistinctTransfers(rows) && row in rows
    ensures Lookup(rows, row.id) == Some(row)
  {
    if rows[|rows| - 1].id != row.id {
      LookupDistinct(rows[..|rows| - 1], row);
    }
  }

  function IdsOf(rows: seq<Transfer>): (r: set<Id>)
    ensures forall row :: row in rows ==> row.id in r
    ensures forall id :: id in r ==> exists row :: row in rows && row.id == id
  {
    set row | row in rows :: row.id
  }

  predicate HoldsId(pending: seq<Held>, id: Id) {
    exists h :: h in pending && h.id == id
  }

  /** `id` is awaited, and its source debit has not been observed yet. */
  predicate HoldsUnobserved(pending: seq<Held>, id: Id) {
    exists h :: h in pending && h.id == id && !h.debitObserved
  }
}
