/**
 * How one complete sample accounts for the tracked rebalances: which part of a
 * BTC decrease their journal explains, and when attribution is put off.
 */
module Rebalances {
  import opened Util
  import opened CheckpointTypes

  datatype Error = MissingTransfer(id: Id) | NoModernBaseline

  /** The fee a completed transfer may excuse, given the source debit that was observed for it. */
  function CompletionAllowance(row: Transfer, sourceDebit: nat): (a: nat)
    ensures a <= row.feeSats
    ensures a > 0 ==> row.state == Completed && row.creditedSats.Some? && row.creditedSats.value + a <= sourceDebit
  {
    if row.state != Completed || row.creditedSats.None? then 0
    else Min(row.feeSats, Positive(sourceDebit - row.creditedSats.value))
  }

  // ---- the three passes, as functions ----

  /** The running totals of one attribution: what is still unexplained, and who is still awaited. */
  datatype Attribution = Attribution(feeAllowance: int, decrease: nat, sourceDecrease: nat, pending: seq<Held>)

  function PriorRebalance(previous: Option<Checkpoint>): Option<Rebalance> {
    if previous.Some? then previous.value.rebalance else None
  }

  function PriorSeen(previous: Option<Checkpoint>): set<Id> {
    var prior := PriorRebalance(previous);
    if prior.Some? then prior.value.seenIds else {}
  }

  function PriorPending(previous: Option<Checkpoint>): seq<Held> {
    var prior := PriorRebalance(previous);
    if prior.Some? then prior.value.pending else []
  }

  function PriorDeferral(previous: Option<Checkpoint>): Option<RebalanceDeferral> {
    var prior := PriorRebalance(previous);
    if prior.Some? then prior.value.attributionDeferred else None
  }

  function Delta(previous: Option<Checkpoint>, totalSats: nat): int {
    if previous.Some? then totalSats - previous.value.totalSats else 0
  }

  function SourceDrop(previous: Option<Checkpoint>, arkadeSats: nat): nat {
    if previous.Some? then Positive(previous.value.arkadeSats - arkadeSats) else 0
  }

  function Start(previous: Option<Checkpoint>, totalSats: nat, arkadeSats: nat): Attribution {
    var prior := PriorRebalance(previous);
    Attribution(
      if prior.Some? then prior.value.feeAllowanceUsedSats else 0,
      Positive(-Delta(previous, totalSats)),
      SourceDrop(previous, arkadeSats),
      PriorPending(previous))
  }

  /** First pass, one journal row: start following it, or excuse the fee of one that came and went. */
  function Admit(previous: Option<Checkpoint>, a: Attribution, row: Transfer): Attribution {
    if row.chargedAt.None? || row.id in PriorSeen(previous) || HoldsId(a.pending, row.id) then a
    else if IsPending(row) then
      var early := previous.None? ||
                   (previous.value.rebalance.None? && row.chargedAt.value <= previous.value.startedAt);
      a.(pending := a.pending + [Held(row.id, row.chargedAt.value, early, 0, 0)])
    else if previous.Some? then
      var debit := Min(a.sourceDecrease, row.debitSats);
      var explained := Min(a.decrease, CompletionAllowance(row, debit));
      a.(feeAllowance := a.feeAllowance + explained,
         decrease := a.decrease - explained,
         sourceDecrease := a.sourceDecrease - debit)
    else a
  }

  function AdmitAll(previous: Option<Checkpoint>, a: Attribution, rows: seq<Transfer>): Attribution {
    if rows == [] then a
    else Admit(previous, AdmitAll(previous, a, rows[..|rows| - 1]), rows[|rows| - 1])
  }

  /** Second pass, one awaited transfer: its source debit is taken from what the Arkade balance lost. */
  function Observe(rows: seq<Transfer>, a: Attribution, i: nat): (r: Attribution)
    requires i < |a.pending|
    ensures |r.pending| == |a.pending|
  {
    var held := a.pending[i];
    var row := Lookup(rows, held.id);
    if !held.debitObserved && a.sourceDecrease > 0 && row.Some? then
      var debit := Min(a.sourceDecrease, row.value.debitSats);
      var explained := Min(a.decrease, debit);
      a.(decrease := a.decrease - explained,
         sourceDecrease := a.sourceDecrease - debit,
         pending := a.pending[i := held.(remainingSats := explained, observedDebitSats := debit, debitObserved := true)])
    else a
  }

  function ObserveUpTo(rows: seq<Transfer>, a: Attribution, n: nat): (r: Attribution)
    requires n <= |a.pending|
    ensures |r.pending| == |a.pending|
  {
    if n == 0 then a else Observe(rows, ObserveUpTo(rows, a, n - 1), n - 1)
  }

  predicate StillPending(rows: seq<Transfer>, h: Held) {
    var row := Lookup(rows, h.id);
    row.Some? && IsPending(row.value)
  }

  /** Third pass: what stays awaited. */
  function Remaining(rows: seq<Transfer>, pending: seq<Held>): seq<Held> {
    Filter(pending, h => StillPending(rows, h))
  }

  /** Third pass: the fees excused for those that are done. */
  function FeesOfDone(rows: seq<Transfer>, pending: seq<Held>): nat {
    if pending == [] then 0
    else
      var h := pending[|pending| - 1];
      var row := Lookup(rows, h.id);
      FeesOfDone(rows, pending[..|pending| - 1]) +
      if StillPending(rows, h) || row.None? then 0 else CompletionAllowance(row.value, h.observedDebitSats)
  }

  function RemainingSats(pending: seq<Held>): nat {
    if pending == [] then 0 else RemainingSats(pending[..|pending| - 1]) + pending[|pending| - 1].remainingSats
  }

  function HeldIds(pending: seq<Held>): (r: seq<Id>)
    ensures |r| == |pending| && forall i :: 0 <= i < |r| ==> r[i] == pending[i].id
  {
    seq(|pending|, i requires 0 <= i < |pending| => pending[i].id)
  }

  /** `ids`, then those of `more` it does not hold yet. */
  function AppendNew(ids: seq<Id>, more: seq<Id>): (r: seq<Id>)
    ensures forall id :: id in r <==> id in ids || id in more
    ensures ids <= r
  {
    if more == [] then ids
    else
      var r := AppendNew(ids, more[..|more| - 1]);
      if more[|more| - 1] in r then r else r + [more[|more| - 1]]
  }

  // ---- the decision to defer ----

  predicate AmbiguousRise(previous: Option<Checkpoint>, totalSats: nat, arkadeSats: nat,
                                observed: seq<Held>, remaining: seq<Held>) {
    var delta := Delta(previous, totalSats);
    (remaining != [] && (delta > 0 || SourceDrop(previous, arkadeSats) > Positive(-delta)))
    || LegacyUnprovenReturn(previous, observed)
  }

  predicate LegacyUnprovenReturn(previous: Option<Checkpoint>, observed: seq<Held>) {
    var prior := PriorRebalance(previous);
    (prior.None? || !prior.value.version2)
    && exists h :: h in observed && h.debitObserved && h.remainingSats < h.observedDebitSats
  }

  predicate MayResolve(previous: Option<Checkpoint>, remaining: seq<Held>) {
    PriorDeferral(previous).Some? && remaining == [] && PriorPending(previous) == []
  }

  /** The deferral a single ambiguous sample opens after `previous`. */
  function OpenDeferral(previous: Checkpoint, transferIds: seq<Id>): RebalanceDeferral {
    RebalanceDeferral(
      previous.id,
      if previous.rebalance.Some? then previous.rebalance.value.comparisonTotalSats else previous.totalSats,
      transferIds, None, DueBtcIds(previous), DueBtcRows(previous))
  }

  function NextDeferral(previous: Option<Checkpoint>, totalSats: nat, arkadeSats: nat,
                              observed: seq<Held>, remaining: seq<Held>): Option<RebalanceDeferral> {
    var earlier := PriorDeferral(previous);
    if MayResolve(previous, remaining) then None
    else if earlier.Some? then
      Some(earlier.value.(transferIds := AppendNew(earlier.value.transferIds, HeldIds(remaining))))
    else if AmbiguousRise(previous, totalSats, arkadeSats, observed, remaining) && previous.Some? then
      Some(OpenDeferral(previous.value, HeldIds(remaining)))
    else None
  }

  // ---- the accounting of one sample ----

  /** Everything attributed before the journal's terminal states are read. */
  function Attributed(previous: Option<Checkpoint>, totalSats: nat, arkadeSats: nat, rows: seq<Transfer>): Attribution {
    var admitted := AdmitAll(previous, Start(previous, totalSats, arkadeSats), rows);
    ObserveUpTo(rows, admitted, |admitted.pending|)
  }

  /** What the sample persists, once its rows are attributed and the finished ones dropped. */
  function Conclude(previous: Option<Checkpoint>, totalSats: nat, arkadeSats: nat, rows: seq<Transfer>,
                    observed: seq<Held>, remaining: seq<Held>, feeAllowance: int, inFlight: nat): Rebalance {
    var deferral := NextDeferral(previous, totalSats, arkadeSats, observed, remaining);
    var prior := PriorRebalance(previous);
    Rebalance(
      true,
      if deferral.Some? then deferral.value.anchorComparisonTotalSats else totalSats + feeAllowance + inFlight,
      feeAllowance,
      if prior.Some? then prior.value.uncertainFeeAllowanceSats else 0,
      if prior.Some? then prior.value.accountedOverrideIds else {},
      IdsOf(rows),
      remaining,
      deferral,
      if MayResolve(previous, remaining) then PriorDeferral(previous).value.heldBtcDecreaseIds else {})
  }

  /** The specification of `AccountRebalances`. */
  function Accounted(previous: Option<Checkpoint>, totalSats: nat, arkadeSats: nat, rows: seq<Transfer>)
    : Result<Rebalance, Error>
  {
    var missing := FirstMissing(rows, HeldIds(PriorPending(previous)));
    if missing.Some? then Err(MissingTransfer(missing.value))
    else
      var a := Attributed(previous, totalSats, arkadeSats, rows);
      var remaining := Remaining(rows, a.pending);
      Ok(Conclude(previous, totalSats, arkadeSats, rows, a.pending, remaining,
                  a.feeAllowance + FeesOfDone(rows, a.pending), RemainingSats(remaining)))
  }

  function FirstMissing(rows: seq<Transfer>, ids: seq<Id>): (r: Option<Id>)
    ensures r.None? ==> forall id :: id in ids ==> Lookup(rows, id).Some?
    ensures r.Some? ==> r.value in ids && Lookup(rows, r.value).None?
  {
    if ids == [] then None
    else
      var last := ids[|ids| - 1];
      assert ids == ids[..|ids| - 1] + [last];
      var earlier := FirstMissing(rows, ids[..|ids| - 1]);
      if earlier.Some? then earlier
      else if Lookup(rows, last).None? then Some(last)
      else None
  }

  /** First pass: every journal row in order. */
  method AdmitRows(previous: Option<Checkpoint>, start: Attribution, rows: seq<Transfer>) returns (a: Attribution)
    ensures a == AdmitAll(previous, start, rows)
  {
    var feeAllowance, pending := start.feeAllowance, start.pending;
    var decrease: nat, sourceDecrease: nat := start.decrease, start.sourceDecrease;
    var seen := PriorSeen(previous);
    for i := 0 to |rows|
      invariant Attribution(feeAllowance, decrease, sourceDecrease, pending) == AdmitAll(previous, start, rows[..i])
    {
      assert rows[..i + 1][..i] == rows[..i];
      var row := rows[i];
      if row.chargedAt.None? || row.id in seen || HoldsId(pending, row.id) { continue; }
      if IsPending(row) {
        var early := previous.None? ||
                     (previous.value.rebalance.None? && row.chargedAt.value <= previous.value.startedAt);
        pending := pending + [Held(row.id, row.chargedAt.value, early, 0, 0)];
      } else if previous.Some? {
        var debit := Min(sourceDecrease, row.debitSats);
        var explained := Min(decrease, CompletionAllowance(row, debit));
        feeAllowance := feeAllowance + explained;
        decrease := decrease - explained;
        sourceDecrease := sourceDecrease - debit;
      }
    }
    assert rows[..|rows|] == rows;
    a := Attribution(feeAllowance, decrease, sourceDecrease, pending);
  }

  /** Second pass: the source debits now visible, oldest awaited transfer first. */
  method ObserveDebits(rows: seq<Transfer>, admitted: Attribution) returns (a: Attribution)
    ensures a == ObserveUpTo(rows, admitted, |admitted.pending|)
  {
    var pending := admitted.pending;
    var decrease: nat, sourceDecrease: nat := admitted.decrease, admitted.sourceDecrease;
    for i := 0 to |pending|
      invariant |pending| == |admitted.pending|
      invariant Attribution(admitted.feeAllowance, decrease, sourceDecrease, pending) == ObserveUpTo(rows, admitted, i)
    {
      var held := pending[i];
      var row := Lookup(rows, held.id);
      if !held.debitObserved && sourceDecrease > 0 && row.Some? {
        var debit := Min(sourceDecrease, row.value.debitSats);
        var explained := Min(decrease, debit);
        pending := pending[i := held.(remainingSats := explained, observedDebitSats := debit, debitObserved := true)];
        decrease := decrease - explained;
        sourceDecrease := sourceDecrease - debit;
      }
    }
    a := Attribution(admitted.feeAllowance, decrease, sourceDecrease, pending);
  }

  /** Third pass: drop the transfers that are done, excusing their fees. */
  method SettleDone(rows: seq<Transfer>, pending: seq<Held>) returns (remaining: seq<Held>, fees: nat)
    ensures remaining == Remaining(rows, pending)
    ensures fees == FeesOfDone(rows, pending)
  {
    remaining, fees := [], 0;
    for i := 0 to |pending|
      invariant remaining == Remaining(rows, pending[..i])
      invariant fees == FeesOfDone(rows, pending[..i])
    {
      assert pending[..i + 1][..i] == pending[..i];
      var held := pending[i];
      var row := Lookup(rows, held.id);
      if row.Some? && IsPending(row.value) {
        remaining := remaining + [held];
      } else if row.Some? {
        fees := fees + CompletionAllowance(row.value, held.observedDebitSats);
      }
    }
    assert pending[..|pending|] == pending;
  }

  method AccountRebalances(previous: Option<Checkpoint>, totalSats: nat, arkadeSats: nat, rows: seq<Transfer>)
    returns (r: Result<Rebalance, Error>)
    ensures r == Accounted(previous, totalSats, arkadeSats, rows)
  {
    var missing := FirstMissing(rows, HeldIds(PriorPending(previous)));
    if missing.Some? { return Err(MissingTransfer(missing.value)); }
    var a := AdmitRows(previous, Start(previous, totalSats, arkadeSats), rows);
    a := ObserveDebits(rows, a);
    var remaining, fees := SettleDone(rows, a.pending);
    var inFlight := SumRemaining(remaining);
    r := Ok(Conclude(previous, totalSats, arkadeSats, rows, a.pending, remaining, a.feeAllowance + fees, inFlight));
  }

  method SumRemaining(pending: seq<Held>) returns (sum: nat)
    ensures sum == RemainingSats(pending)
  {
    sum := 0;
    for i := 0 to |pending|
      invariant sum == RemainingSats(pending[..i])
    {
      assert pending[..i + 1][..i] == pending[..i];
      sum := sum + pending[i].remainingSats;
    }
    assert pending[..|pending|] == pending;
  }

  // ---- overlapping rebalances ----

  /** A charged transfer an operator let overlap another, and that has not been accounted for yet. */
  predicate IsMarker(prior: Option<Rebalance>, row: Transfer) {
    row.chargedAt.Some? && row.overridePendingIds != []
    && !(prior.Some? && row.id in prior.value.accountedOverrideIds)
  }

  function FindMarker(prior: Option<Rebalance>, rows: seq<Transfer>): (r: Option<Transfer>)
    ensures r.Some? ==> r.value in rows && IsMarker(prior, r.value)
    ensures r.None? ==> forall row :: row in rows ==> !IsMarker(prior, row)
  {
    if rows == [] then None
    else if IsMarker(prior, rows[0]) then Some(rows[0])
    else FindMarker(prior, rows[1..])
  }

  /** The deferral an overlap starts, or the single one it widens. */
  function OverlapDeferral(previous: Checkpoint, prior: Rebalance, marker: Transfer): RebalanceDeferral {
    var single := prior.attributionDeferred;
    if single.Some? then
      single.value.(
        transferIds := AppendNew(AppendNew(single.value.transferIds, marker.overridePendingIds), [marker.id]),
        overrideId := Some(marker.id))
    else
      RebalanceDeferral(previous.id, prior.comparisonTotalSats,
                        AppendNew(AppendNew([], marker.overridePendingIds), [marker.id]),
                        Some(marker.id), DueBtcIds(previous), DueBtcRows(previous))
  }

  function AllowedFees(rows: seq<Transfer>, ids: seq<Id>): nat {
    if ids == [] then 0
    else
      var row := Lookup(rows, ids[|ids| - 1]);
      AllowedFees(rows, ids[..|ids| - 1]) +
      if row.Some? then CompletionAllowance(row.value, row.value.debitSats) else 0
  }

  /** Every tracked transfer is over, and this sample began after the last of them moved. */
  predicate OverlapSettled(rows: seq<Transfer>, ids: seq<Id>, startedAt: nat) {
    forall id :: id in ids ==>
      Lookup(rows, id).Some? ==> IsTerminal(Lookup(rows, id).value) && Lookup(rows, id).value.updatedAt < startedAt
  }

  /** `None` when no overlap is in play, and ordinary accounting applies. */
  function AccountDeferredRebalances(previous: Option<Checkpoint>, totalSats: nat, rows: seq<Transfer>, startedAt: nat)
    : Option<Result<Rebalance, Error>>
  {
    var prior := PriorRebalance(previous);
    var earlier := PriorDeferral(previous);
    var overlapping := earlier.Some? && earlier.value.overrideId.Some?;
    var marker := FindMarker(prior, rows);
    if !overlapping && marker.None? then None
    else if prior.None? || !prior.value.version2 then Some(Err(NoModernBaseline))
    else
      var deferred := if overlapping then earlier.value else OverlapDeferral(previous.value, prior.value, marker.value);
      var missing := FirstMissing(rows, deferred.transferIds);
      if missing.Some? then Some(Err(MissingTransfer(missing.value)))
      else
        var seenIds := prior.value.seenIds + IdsOf(rows);
        if !overlapping || !OverlapSettled(rows, deferred.transferIds, startedAt) then
          Some(Ok(Rebalance(
            true, deferred.anchorComparisonTotalSats, prior.value.feeAllowanceUsedSats,
            prior.value.uncertainFeeAllowanceSats, prior.value.accountedOverrideIds,
            seenIds, [], Some(deferred), {})))
        else
          var allowed := AllowedFees(rows, deferred.transferIds);
          Some(Ok(Rebalance(
            true, totalSats + prior.value.feeAllowanceUsedSats + allowed, prior.value.feeAllowanceUsedSats + allowed,
            prior.value.uncertainFeeAllowanceSats + allowed,
            prior.value.accountedOverrideIds + {deferred.overrideId.value},
            seenIds, [], None, deferred.heldBtcDecreaseIds)))
  }

  /** The rebalance accounting of one complete sample: an overlap in play takes precedence. */
  function AccountSample(previous: Option<Checkpoint>, totalSats: nat, arkadeSats: nat,
                               rows: seq<Transfer>, startedAt: nat): Result<Rebalance, Error>
  {
    var overlap := AccountDeferredRebalances(previous, totalSats, rows, startedAt);
    if overlap.Some? then overlap.value else Accounted(previous, totalSats, arkadeSats, rows)
  }
}
