/**
 * One balance checkpoint computed from the last complete one and a fresh sample,
 * the rows its notices name, and the run of checkpoints a deployment records.
 */
module Checkpoints {
  import opened Util
  import opened CheckpointTypes
  import R = Rebalances
  import W = WithdrawalAccounting

  /** Everything one complete reading saw. `transfers` is `None` where no rebalance store exists. */
  datatype Sample = Sample(
    startedAt: nat,
    arkadeSats: nat,
    assets: seq<AssetBalance>,
    totalSats: nat,
    transfers: Option<seq<Transfer>>,
    withdrawals: seq<Withdrawal>,
    history: seq<HistoryRow>)

  /** A reading that failed anywhere is `Unread`; the store numbers every record it keeps. */
  datatype Input = Unread(id: nat) | Read(id: nat, sample: Sample)

  datatype Entry = Incomplete(id: nat) | Recorded(cp: Checkpoint)

  const UNRECOVERED_LIMIT: nat := 20

  // ---- levels and changes ----

  function AmountOf(assets: seq<AssetBalance>, id: Id): nat {
    if assets == [] then 0
    else if assets[|assets| - 1].id == id then assets[|assets| - 1].amount
    else AmountOf(assets[..|assets| - 1], id)
  }

  function AssetIds(assets: seq<AssetBalance>): (r: seq<Id>)
    ensures |r| == |assets|
  {
    seq(|assets|, i requires 0 <= i < |assets| => assets[i].id)
  }

  datatype Change = Change(asset: Asset, before: int, after: int)

  function AssetChanges(before: seq<AssetBalance>, after: seq<AssetBalance>, ids: seq<Id>): (r: seq<Change>)
    ensures |r| == |ids|
    ensures forall i :: 0 <= i < |r| ==>
      r[i] == Change(ArkadeAsset(ids[i]), AmountOf(before, ids[i]), AmountOf(after, ids[i]))
  {
    seq(|ids|, i requires 0 <= i < |ids| => Change(ArkadeAsset(ids[i]), AmountOf(before, ids[i]), AmountOf(after, ids[i])))
  }

  /** Every level compared: BTC on its comparison, each asset on its exact balance. */
  function Changes(previous: Checkpoint, previousComparison: int, comparison: int, assets: seq<AssetBalance>): seq<Change> {
    [Change(Btc, previousComparison, comparison)] +
    AssetChanges(previous.assets, assets, R.AppendNew(AssetIds(previous.assets), AssetIds(assets)))
  }

  /** The level a followed decrease is measured against; an asset no longer listed is at zero. */
  function Level(comparison: int, assets: seq<AssetBalance>, asset: Asset): int {
    match asset
    case Btc => comparison
    case ArkadeAsset(id) => AmountOf(assets, id)
  }

  function Drops(changes: seq<Change>, btcDeferred: bool, uncertain: nat): seq<Decrease> {
    if changes == [] then []
    else
      var c := changes[|changes| - 1];
      Drops(changes[..|changes| - 1], btcDeferred, uncertain) +
      if c.after < c.before && !(btcDeferred && c.asset == Btc)
      then [Decrease(c.asset, c.before, c.after, if c.asset == Btc then uncertain else 0)]
      else []
  }

  // ---- followed decreases ----

  predicate SameKey(a: Followed, b: Followed) {
    a.checkpointId == b.checkpointId && a.asset == b.asset
  }

  /** `rows` with `row` filed under its key: in place of the row it renews, else last. */
  function Upsert(rows: seq<Followed>, row: Followed): (r: seq<Followed>)
    ensures forall x :: x in r ==> x == row || x in rows
  {
    if rows == [] then [row]
    else if SameKey(rows[0], row) then [row] + rows[1..]
    else [rows[0]] + Upsert(rows[1..], row)
  }

  function UpsertAll(rows: seq<Followed>, more: seq<Followed>): (r: seq<Followed>)
    ensures forall x :: x in r ==> x in rows || x in more
  {
    if more == [] then rows
    else Upsert(UpsertAll(rows, more[..|more| - 1]), more[|more| - 1])
  }

  function RebalanceHeldRows(c: Checkpoint): seq<Followed> {
    if c.rebalance.Some? && c.rebalance.value.attributionDeferred.Some?
    then c.rebalance.value.attributionDeferred.value.heldBtcWarnings else []
  }

  function WithdrawalHeldRows(c: Checkpoint): seq<Followed> {
    if c.withdrawals.Some? && c.withdrawals.value.deferred.Some?
    then c.withdrawals.value.deferred.value.heldBtcWarnings else []
  }

  function Carried(previous: Checkpoint): seq<Followed> {
    UpsertAll([], previous.unrecovered + RebalanceHeldRows(previous) + WithdrawalHeldRows(previous)
                  + FollowedFrom(previous.id, previous.drops))
  }

  /** An explained withdrawal lowers the level a BTC row has to come back to. */
  function Lowered(row: Followed, explainedDebit: nat): Followed {
    if row.asset == Btc then row.(before := row.before - explainedDebit) else row
  }

  function LowerAll(rows: seq<Followed>, explainedDebit: nat): (r: seq<Followed>)
    ensures |r| == |rows| && forall i :: 0 <= i < |r| ==> r[i] == Lowered(rows[i], explainedDebit)
  {
    seq(|rows|, i requires 0 <= i < |rows| => Lowered(rows[i], explainedDebit))
  }

  // ---- deferral bookkeeping ----

  predicate RebalanceDeferred(r: Option<Rebalance>) {
    r.Some? && r.value.attributionDeferred.Some?
  }

  predicate WithdrawalDeferred(w: Option<Withdrawals>) {
    w.Some? && w.value.deferred.Some?
  }

  predicate BtcDeferred(r: Option<Rebalance>, w: Option<Withdrawals>) {
    RebalanceDeferred(r) || WithdrawalDeferred(w)
  }

  function RebalanceHeldIds(r: Option<Rebalance>): set<nat> {
    if RebalanceDeferred(r) then r.value.attributionDeferred.value.heldBtcDecreaseIds else {}
  }

  function WithdrawalHeldIds(w: Option<Withdrawals>): set<nat> {
    if WithdrawalDeferred(w) then w.value.deferred.value.heldBtcDecreaseIds else {}
  }

  function DelayedIds(r: Option<Rebalance>, w: Option<Withdrawals>): set<nat> {
    (if r.Some? then r.value.delayedBtcWarningIds else {}) + (if w.Some? then w.value.delayedBtcWarningIds else {})
  }

  /** The BTC rows whose notice waits, once both deferrals of this sample are known. */
  function HeldNow(previous: Option<Checkpoint>, r: Option<Rebalance>, w: Option<Withdrawals>): set<nat> {
    (if previous.Some? then RebalanceHeldIds(previous.value.rebalance) + WithdrawalHeldIds(previous.value.withdrawals) else {})
    + RebalanceHeldIds(r) + WithdrawalHeldIds(w) + DelayedIds(r, w)
  }

  function HeldRows(followed: seq<Followed>, ids: set<nat>): seq<Followed> {
    Filter(followed, (row: Followed) => row.asset == Btc && row.checkpointId in ids)
  }

  function WithRebalanceHeld(r: Option<Rebalance>, ids: set<nat>, rows: seq<Followed>): Option<Rebalance> {
    if RebalanceDeferred(r)
    then Some(r.value.(attributionDeferred := Some(r.value.attributionDeferred.value.(
                heldBtcDecreaseIds := ids, heldBtcWarnings := rows))))
    else r
  }

  function WithWithdrawalHeld(w: Option<Withdrawals>, ids: set<nat>, rows: seq<Followed>): Option<Withdrawals> {
    if WithdrawalDeferred(w)
    then Some(w.value.(deferred := Some(w.value.deferred.value.(heldBtcDecreaseIds := ids, heldBtcWarnings := rows))))
    else w
  }

  /** The BTC ids the cap may not drop: held ones, or those whose hold ends here. */
  function ProtectedIds(r: Option<Rebalance>, w: Option<Withdrawals>): set<nat> {
    (if RebalanceDeferred(r) then RebalanceHeldIds(r) else if r.Some? then r.value.delayedBtcWarningIds else {})
    + (if WithdrawalDeferred(w) then WithdrawalHeldIds(w) else if w.Some? then w.value.delayedBtcWarningIds else {})
  }

  function IsBack(row: Followed, comparison: int, assets: seq<AssetBalance>, btcDeferred: bool, uncertain: nat): bool {
    if row.asset != Btc then Level(comparison, assets, row.asset) >= row.before
    else !btcDeferred && comparison - uncertain >= row.before - row.uncertainFeeAllowanceSats
  }

  function UncertainAllowance(r: Option<Rebalance>): nat {
    if r.Some? then r.value.uncertainFeeAllowanceSats else 0
  }

  function OpenRows(followed: seq<Followed>, comparison: int, assets: seq<AssetBalance>, btcDeferred: bool, uncertain: nat)
    : seq<Followed>
  {
    Filter(followed, (row: Followed) => !IsBack(row, comparison, assets, btcDeferred, uncertain))
  }

  function BackRows(followed: seq<Followed>, comparison: int, assets: seq<AssetBalance>, btcDeferred: bool,
                    uncertain: nat, delayed: set<nat>): seq<Followed>
  {
    Filter(followed, (row: Followed) =>
      IsBack(row, comparison, assets, btcDeferred, uncertain) && !(row.asset == Btc && row.checkpointId in delayed))
  }

  predicate IsProtected(row: Followed, ids: set<nat>) {
    row.asset == Btc && row.checkpointId in ids
  }

  function LastOf(rows: seq<Followed>, room: nat): (r: seq<Followed>)
    ensures forall x :: x in r ==> x in rows
    ensures |rows| <= room ==> r == rows
  {
    if |rows| <= room then rows else rows[|rows| - room..]
  }

  function ProtectedRows(open: seq<Followed>, ids: set<nat>): seq<Followed> {
    Filter(open, (row: Followed) => IsProtected(row, ids))
  }

  function OtherRows(open: seq<Followed>, ids: set<nat>): seq<Followed> {
    Filter(open, (row: Followed) => !IsProtected(row, ids))
  }

  /** Open rows, the protected ones always and the newest of the rest as far as there is room. */
  function Capped(open: seq<Followed>, protectedIds: set<nat>): (r: seq<Followed>)
    ensures forall x :: x in r ==> x in open
    ensures forall x :: x in open && IsProtected(x, protectedIds) ==> x in r
  {
    var kept := ProtectedRows(open, protectedIds);
    kept + LastOf(OtherRows(open, protectedIds), Positive(UNRECOVERED_LIMIT - |kept|))
  }

  // ---- one checkpoint ----

  function AccountRebalance(baseline: Option<Checkpoint>, s: Sample): Result<Option<Rebalance>, R.Error>
  {
    if s.transfers.None? && R.PriorRebalance(baseline).None? then Ok(None)
    else
      var rows := if s.transfers.Some? then s.transfers.value else [];
      var r := R.AccountSample(baseline, s.totalSats, s.arkadeSats, rows, s.startedAt);
      if r.Err? then Err(r.error) else Ok(Some(r.value))
  }

  function Corrected(r: Option<Rebalance>, correction: int): Option<Rebalance> {
    if r.Some? && correction != 0
    then Some(r.value.(comparisonTotalSats := r.value.comparisonTotalSats + correction,
                       feeAllowanceUsedSats := r.value.feeAllowanceUsedSats + correction))
    else r
  }

  /** Both accountings of a sample, or nothing where a journal no longer holds what is tracked. */
  datatype Accounts = Accounts(rebalance: Option<Rebalance>, withdrawals: Withdrawals, previousComparison: int, explainedDebit: nat)

  function Account(baseline: Option<Checkpoint>, s: Sample): Option<Accounts> {
    var r := AccountRebalance(baseline, s);
    if r.Err? then None
    else
      var rows := if s.transfers.Some? then s.transfers.value else [];
      var w := W.Accounted(baseline, s.totalSats, s.arkadeSats, r.value, rows, s.withdrawals, s.history);
      if w.Err? then None
      else Some(Accounts(Corrected(r.value, w.value.rebalanceCorrectionSats), w.value.state,
                         w.value.previousComparisonSats, w.value.explainedDebitSats))
  }

  function Followings(baseline: Option<Checkpoint>, explainedDebit: nat): seq<Followed> {
    if baseline.Some? then LowerAll(Carried(baseline.value), explainedDebit) else []
  }

  function Assemble(baseline: Option<Checkpoint>, s: Sample, a: Accounts, id: nat): Checkpoint {
    var r0, w0 := a.rebalance, Some(a.withdrawals);
    var comparison := a.withdrawals.comparisonTotalSats;
    var btcDeferred := BtcDeferred(r0, w0);
    var followed := Followings(baseline, a.explainedDebit);
    var ids := HeldNow(baseline, r0, w0);
    var held := HeldRows(followed, ids);
    var r, w := WithRebalanceHeld(r0, ids, held), WithWithdrawalHeld(w0, ids, held);
    var uncertain := UncertainAllowance(r);
    var delayed := DelayedIds(r, w);
    Checkpoint(
      id, s.startedAt, s.arkadeSats, s.assets, s.totalSats,
      if baseline.Some? then Some(baseline.value.id) else None,
      if baseline.Some? then
        Drops(Changes(baseline.value, a.previousComparison, comparison, s.assets), btcDeferred, UncertainAllowance(baseline.value.rebalance))
      else [],
      BackRows(followed, comparison, s.assets, btcDeferred, uncertain, delayed),
      Capped(OpenRows(followed, comparison, s.assets, btcDeferred, uncertain), ProtectedIds(r, w)),
      r, w)
  }

  /** The checkpoint a sample records, or none where its accounting fails and it stays incomplete. */
  function Record(baseline: Option<Checkpoint>, s: Sample, id: nat): Option<Checkpoint> {
    var a := Account(baseline, s);
    if a.Some? then Some(Assemble(baseline, s, a.value, id)) else None
  }

  // ---- notices ----

  predicate Due(c: Checkpoint, row: Followed) {
    c.previousId == Some(row.checkpointId)
    || (row.asset == Btc && row.checkpointId in DelayedIds(c.rebalance, c.withdrawals))
  }

  predicate Paused(c: Checkpoint, row: Followed) {
    row.asset == Btc && BtcDeferred(c.rebalance, c.withdrawals)
  }

  /** The decreases the POSSIBLE LOSS notice of `c` names. */
  function WarnedRows(c: Checkpoint): seq<Followed> {
    Filter(c.unrecovered, (row: Followed) => Due(c, row) && !Paused(c, row))
  }

  /** The decreases the RECOVERED notice of `c` names. */
  function RecoveredRows(c: Checkpoint): seq<Followed> {
    Filter(c.recovered, (row: Followed) =>
      c.previousId != Some(row.checkpointId) && !Paused(c, row)
      && !(row.asset == Btc && row.checkpointId in DelayedIds(c.rebalance, c.withdrawals)))
  }

  // ---- runs ----

  function Baseline(entries: seq<Entry>): (r: Option<Checkpoint>)
    ensures r.Some? ==> Recorded(r.value) in entries
  {
    if entries == [] then None
    else if entries[|entries| - 1].Recorded? then Some(entries[|entries| - 1].cp)
    else Baseline(entries[..|entries| - 1])
  }

  function StepEntry(baseline: Option<Checkpoint>, i: Input): Entry {
    match i
    case Unread(id) => Incomplete(id)
    case Read(id, s) =>
      var cp := Record(baseline, s, id);
      if cp.Some? then Recorded(cp.value) else Incomplete(id)
  }

  /** Every record of a run, oldest first: each sample against the last complete checkpoint before it. */
  function Replay(inputs: seq<Input>): (r: seq<Entry>)
    ensures |r| == |inputs|
  {
    if inputs == [] then []
    else
      var earlier := Replay(inputs[..|inputs| - 1]);
      earlier + [StepEntry(Baseline(earlier), inputs[|inputs| - 1])]
  }

  /** The store hands out ids in increasing order. */
  ghost predicate Ordered(inputs: seq<Input>) {
    forall i, j :: 0 <= i < j < |inputs| ==> inputs[i].id < inputs[j].id
  }
}
