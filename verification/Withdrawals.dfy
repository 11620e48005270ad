/**
 * How one complete sample accounts for operator withdrawals: the Arkade debit of a
 * journaled send is taken out of the comparison only once the wallet's own history,
 * and the drop the balance actually showed, both prove it.
 */
module WithdrawalAccounting {
  import opened Util
  import opened CheckpointTypes
  import R = Rebalances

  datatype Error = MissingWithdrawal(id: Id) | MissingRebalance(id: Id)

  /** What one accounting returns: the state to persist, and how the comparison is to be moved. */
  datatype Accounting = Accounting(
    state: Withdrawals,
    previousComparisonSats: int,
    rebalanceCorrectionSats: int,
    explainedDebitSats: nat)

  // ---- the journals, read against what is already tracked ----

  function Prior(previous: Option<Checkpoint>): Option<Withdrawals> {
    if previous.Some? then previous.value.withdrawals else None
  }

  function PriorComparison(previous: Option<Checkpoint>, totalSats: nat): int {
    var prior := Prior(previous);
    if prior.Some? then prior.value.comparisonTotalSats
    else if R.PriorRebalance(previous).Some? then R.PriorRebalance(previous).value.comparisonTotalSats
    else if previous.Some? then previous.value.totalSats
    else totalSats
  }

  function Find(rows: seq<Withdrawal>, id: Id): (r: Option<Withdrawal>)
    ensures r.Some? ==> r.value in rows && r.value.id == id
    ensures r.None? ==> forall row :: row in rows ==> row.id != id
  {
    if rows == [] then None
    else if rows[|rows| - 1].id == id then Some(rows[|rows| - 1])
    else Find(rows[..|rows| - 1], id)
  }

  predicate Tracks(pending: seq<Withdrawal>, id: Id) {
    exists held :: held in pending && held.id == id
  }

  /** The tracked rows as the journal shows them now. */
  function Refresh(rows: seq<Withdrawal>, pending: seq<Withdrawal>): Result<seq<Withdrawal>, Error> {
    if pending == [] then Ok([])
    else
      var rest := Refresh(rows, pending[..|pending| - 1]);
      var row := Find(rows, pending[|pending| - 1].id);
      if rest.Err? then rest
      else if row.None? then Err(MissingWithdrawal(pending[|pending| - 1].id))
      else Ok(rest.value + [row.value])
  }

  /** Which withdrawals are already dealt with, and which are tracked. */
  datatype Tracking = Tracking(seen: set<Id>, pending: seq<Withdrawal>)

  function Admit(baseline: bool, t: Tracking, row: Withdrawal): Tracking {
    if row.id in t.seen || Tracks(t.pending, row.id) then t
    else if row.state == FailedWithdrawal || (!baseline && row.state == Sent) then t.(seen := t.seen + {row.id})
    else t.(pending := t.pending + [row])
  }

  function AdmitAll(baseline: bool, t: Tracking, rows: seq<Withdrawal>): Tracking {
    if rows == [] then t
    else Admit(baseline, AdmitAll(baseline, t, rows[..|rows| - 1]), rows[|rows| - 1])
  }

  /** A send whose money may already have left. */
  predicate IsLive(held: Withdrawal) {
    held.state != Preparing && held.state != FailedWithdrawal
  }

  function Live(pending: seq<Withdrawal>): seq<Withdrawal> {
    Filter(pending, (held: Withdrawal) => IsLive(held))
  }

  // ---- the rebalances whose source debit falls in the same window ----

  predicate NewSourceDebit(previous: Option<Checkpoint>, row: Transfer) {
    row.chargedAt.Some?
    && if HoldsId(R.PriorPending(previous), row.id)
       then HoldsUnobserved(R.PriorPending(previous), row.id)
       else row.id !in R.PriorSeen(previous)
  }

  /** The rebalances reserved against the drop, and the debit ceiling reserved for them. */
  datatype Reserved = Reserved(ids: seq<Id>, sats: nat)

  function Reserve(previous: Option<Checkpoint>, r: Reserved, row: Transfer): Reserved {
    if NewSourceDebit(previous, row) && row.id !in r.ids
    then Reserved(r.ids + [row.id], r.sats + row.debitSats)
    else r
  }

  function ReserveAll(previous: Option<Checkpoint>, r: Reserved, rows: seq<Transfer>): Reserved {
    if rows == [] then r
    else Reserve(previous, ReserveAll(previous, r, rows[..|rows| - 1]), rows[|rows| - 1])
  }

  function FindHeld(pending: seq<Held>, id: Id): (r: Option<Held>)
    ensures r.Some? ==> r.value in pending && r.value.id == id
  {
    if pending == [] then None
    else if pending[|pending| - 1].id == id then Some(pending[|pending| - 1])
    else FindHeld(pending[..|pending| - 1], id)
  }

  /** The debit each reserved rebalance's fee allowance has been computed from so far. */
  function Basis(prior: map<Id, nat>, current: seq<Held>, earlier: seq<Held>, ids: seq<Id>): map<Id, nat> {
    if ids == [] then prior
    else
      var id := ids[|ids| - 1];
      var rest := Basis(prior, current, earlier, ids[..|ids| - 1]);
      var held := if FindHeld(current, id).Some? then FindHeld(current, id) else FindHeld(earlier, id);
      if held.Some? then rest[id := held.value.observedDebitSats] else rest
  }

  // ---- evidence ----

  predicate Matches(row: HistoryRow, reference: Reference) {
    row.sent && (row.arkTxid == reference || row.commitmentTxid == reference)
  }

  function Matched(reference: Reference, history: seq<HistoryRow>): seq<HistoryRow> {
    Filter(history, (row: HistoryRow) => Matches(row, reference))
  }

  function SumAmounts(rows: seq<HistoryRow>): Option<nat> {
    if rows == [] then Some(0)
    else
      var rest := SumAmounts(rows[..|rows| - 1]);
      if rest.None? || rows[|rows| - 1].amount.None? then None
      else Some(rest.value + rows[|rows| - 1].amount.value)
  }

  /** What the wallet says left under `reference`, once every part of it is settled. */
  function HistoryDebit(reference: Reference, history: seq<HistoryRow>): Option<nat> {
    var matched := Matched(reference, history);
    if matched == [] || exists row :: row in matched && !row.settled then None
    else SumAmounts(matched)
  }

  function MatchedIndexes(reference: Option<Reference>, history: seq<HistoryRow>, n: nat): seq<nat>
    requires n <= |history|
  {
    if n == 0 || reference.None? then []
    else
      MatchedIndexes(reference, history, n - 1) +
      if Matches(history[n - 1], reference.value) then [n - 1] else []
  }

  function AllMatchedIndexes(references: seq<Option<Reference>>, history: seq<HistoryRow>): seq<nat> {
    if references == [] then []
    else
      AllMatchedIndexes(references[..|references| - 1], history) +
      MatchedIndexes(references[|references| - 1], history, |history|)
  }

  predicate NoRepeats<T(==)>(s: seq<T>) {
    forall i, j :: 0 <= i < j < |s| ==> s[i] != s[j]
  }

  /** The exact debit of a sent withdrawal, when the journal carries all of it. */
  function ExactDebit(held: Withdrawal): Option<nat> {
    if held.state == Sent && held.feeSats.Some? && held.reference.Some?
    then Some(held.amountSats + held.feeSats.value)
    else None
  }

  function SumDebits(rows: seq<Withdrawal>): nat {
    if rows == [] then 0
    else
      SumDebits(rows[..|rows| - 1]) +
      if ExactDebit(rows[|rows| - 1]).Some? then ExactDebit(rows[|rows| - 1]).value else 0
  }

  function References(live: seq<Withdrawal>, rows: seq<Transfer>, ids: seq<Id>): seq<Option<Reference>> {
    seq(|live|, i requires 0 <= i < |live| => live[i].reference) +
    seq(|ids|, i requires 0 <= i < |ids| => FundingOf(rows, ids[i]))
  }

  function FundingOf(rows: seq<Transfer>, id: Id): Option<Reference> {
    var row := Lookup(rows, id);
    if row.Some? then row.value.fundingTxid else None
  }

  /** The actual source debit of a reserved rebalance, as the wallet's history proves it. */
  function ActualDebit(rows: seq<Transfer>, basis: map<Id, nat>, history: seq<HistoryRow>, id: Id): (r: Option<nat>)
    ensures r.Some? ==>
              && Lookup(rows, id).Some? && 0 < r.value <= Lookup(rows, id).value.debitSats
              && id in basis && FundingOf(rows, id).Some? && HistoryDebit(FundingOf(rows, id).value, history) == r
  {
    var row := Lookup(rows, id);
    if row.None? || row.value.fundingTxid.None? || id !in basis then None
    else
      var actual := HistoryDebit(row.value.fundingTxid.value, history);
      if actual.Some? && 0 < actual.value <= row.value.debitSats then actual else None
  }

  function SumActual(rows: seq<Transfer>, basis: map<Id, nat>, history: seq<HistoryRow>, ids: seq<Id>): nat {
    if ids == [] then 0
    else
      var actual := ActualDebit(rows, basis, history, ids[|ids| - 1]);
      SumActual(rows, basis, history, ids[..|ids| - 1]) + if actual.Some? then actual.value else 0
  }

  /** How much more (or less) fee the actual debits excuse than the ones first observed. */
  function Correction(rows: seq<Transfer>, basis: map<Id, nat>, history: seq<HistoryRow>, ids: seq<Id>): int {
    if ids == [] then 0
    else
      var id := ids[|ids| - 1];
      var row := Lookup(rows, id);
      var actual := ActualDebit(rows, basis, history, id);
      Correction(rows, basis, history, ids[..|ids| - 1]) +
      if row.Some? && actual.Some? && id in basis
      then R.CompletionAllowance(row.value, actual.value) - R.CompletionAllowance(row.value, basis[id])
      else 0
  }

  function Rebase(rows: seq<Transfer>, basis: map<Id, nat>, history: seq<HistoryRow>, ids: seq<Id>): map<Id, nat> {
    if ids == [] then basis
    else
      var id := ids[|ids| - 1];
      var actual := ActualDebit(rows, basis, history, id);
      var rest := Rebase(rows, basis, history, ids[..|ids| - 1]);
      if actual.Some? then rest[id := actual.value] else rest
  }

  /** Every reserved rebalance is over, and its own debit is known without sharing a history row. */
  predicate EvidenceComplete(rows: seq<Transfer>, basis: map<Id, nat>, history: seq<HistoryRow>,
                             live: seq<Withdrawal>, ids: seq<Id>) {
    var references := References(live, rows, ids);
    (forall id :: id in ids ==> Lookup(rows, id).Some? ==> IsTerminal(Lookup(rows, id).value))
    && NoRepeats(references)
    && NoRepeats(AllMatchedIndexes(references, history))
    && forall id :: id in ids ==> ActualDebit(rows, basis, history, id).Some?
  }

  /** Every live send is journaled as sent, with a debit the wallet's history states exactly. */
  predicate SendsProved(live: seq<Withdrawal>, history: seq<HistoryRow>) {
    forall held :: held in live ==>
      ExactDebit(held).Some? && HistoryDebit(held.reference.value, history) == ExactDebit(held)
  }

  // ---- explaining ----

  function Explainable(proved: bool, held: Withdrawal): bool {
    held.state != FailedWithdrawal && proved && held.feeSats.Some? && held.reference.Some?
  }

  function Kept(proved: bool, pending: seq<Withdrawal>): seq<Withdrawal> {
    Filter(pending, (held: Withdrawal) => held.state != FailedWithdrawal && !Explainable(proved, held))
  }

  function ExplainedRows(proved: bool, pending: seq<Withdrawal>): seq<Explained> {
    if pending == [] then []
    else
      var held := pending[|pending| - 1];
      ExplainedRows(proved, pending[..|pending| - 1]) +
      if Explainable(proved, held)
      then [Explained(held.id, held.reference.value, held.amountSats + held.feeSats.value)]
      else []
  }

  function SumExplained(rows: seq<Explained>): nat {
    if rows == [] then 0 else SumExplained(rows[..|rows| - 1]) + rows[|rows| - 1].debitSats
  }

  function DroppedIds(proved: bool, pending: seq<Withdrawal>): set<Id> {
    set held | held in pending && (held.state == FailedWithdrawal || Explainable(proved, held)) :: held.id
  }

  function NextDeferral(previous: Option<Checkpoint>, remainingLive: bool): Option<WithdrawalDeferral> {
    var prior := Prior(previous);
    if !remainingLive then None
    else if prior.Some? && prior.value.deferred.Some? then prior.value.deferred
    else if previous.Some? then
      Some(WithdrawalDeferral(previous.value.id, DueBtcIds(previous.value), DueBtcRows(previous.value)))
    else Some(WithdrawalDeferral(0, {}, []))
  }

  // ---- the accounting of one sample ----

  /** What is gathered before anything is explained. */
  datatype Gathered = Gathered(
    tracking: Tracking,
    live: seq<Withdrawal>,
    sourceDropSats: nat,
    reserved: Reserved,
    basis: map<Id, nat>)

  function PriorReserved(previous: Option<Checkpoint>): Reserved {
    var prior := Prior(previous);
    if prior.Some? then Reserved(prior.value.rebalanceIds, prior.value.rebalanceReservedSats) else Reserved([], 0)
  }

  function PriorDrop(previous: Option<Checkpoint>): nat {
    if Prior(previous).Some? then Prior(previous).value.observedSourceDropSats else 0
  }

  function GatherWith(previous: Option<Checkpoint>, arkadeSats: nat, rebalance: Option<Rebalance>,
                      tracking: Tracking, live: seq<Withdrawal>, reserved: Reserved): Gathered
  {
    Gathered(
      tracking, live,
      PriorDrop(previous) + (if live != [] then R.SourceDrop(previous, arkadeSats) else 0),
      reserved,
      Basis(if Prior(previous).Some? then Prior(previous).value.rebalanceAllowanceBasis else map[],
            if rebalance.Some? then rebalance.value.pending else [],
            R.PriorPending(previous), reserved.ids))
  }

  function Gather(previous: Option<Checkpoint>, arkadeSats: nat, rebalance: Option<Rebalance>,
                  transfers: seq<Transfer>, tracking: Tracking): Gathered
  {
    var live := Live(tracking.pending);
    GatherWith(previous, arkadeSats, rebalance, tracking, live,
               if live != [] then ReserveAll(previous, PriorReserved(previous), transfers) else PriorReserved(previous))
  }

  predicate Proved(g: Gathered, rebalance: Option<Rebalance>, transfers: seq<Transfer>, history: seq<HistoryRow>) {
    g.live != []
    && !(rebalance.Some? && rebalance.value.attributionDeferred.Some?)
    && EvidenceComplete(transfers, g.basis, history, g.live, g.reserved.ids)
    && SendsProved(g.live, history)
    && g.sourceDropSats >= SumActual(transfers, g.basis, history, g.reserved.ids) + SumDebits(g.live)
  }

  /** What the sample persists, once its withdrawals are gathered and the proved ones explained. */
  function Conclude(previous: Option<Checkpoint>, totalSats: nat, rebalance: Option<Rebalance>,
                    transfers: seq<Transfer>, history: seq<HistoryRow>, g: Gathered,
                    remaining: seq<Withdrawal>, explained: seq<Explained>, explainedDebit: nat, seen: set<Id>): Accounting
  {
    var prior := Prior(previous);
    var complete := EvidenceComplete(transfers, g.basis, history, g.live, g.reserved.ids);
    var corrected := complete && !(rebalance.Some? && rebalance.value.attributionDeferred.Some?);
    var correction := if corrected then Correction(transfers, g.basis, history, g.reserved.ids) else 0;
    var basis := if corrected then Rebase(transfers, g.basis, history, g.reserved.ids) else g.basis;
    var reservedActual := if complete then SumActual(transfers, g.basis, history, g.reserved.ids) else g.reserved.sats;
    var remainingLive := exists held :: held in remaining && held.state != Preparing;
    var deferred := NextDeferral(previous, remainingLive);
    var previousComparison := PriorComparison(previous, totalSats) - explainedDebit;
    var base := (if rebalance.Some? then rebalance.value.comparisonTotalSats else totalSats) + correction;
    Accounting(
      Withdrawals(
        if deferred.Some? then previousComparison else base,
        seen,
        if remainingLive then g.sourceDropSats else 0,
        if remainingLive then reservedActual else 0,
        if remainingLive then g.reserved.ids else [],
        if remainingLive then basis else map[],
        remaining,
        deferred,
        if deferred.None? && prior.Some? && prior.value.deferred.Some? then prior.value.deferred.value.heldBtcDecreaseIds else {},
        explained),
      previousComparison, correction, explainedDebit)
  }

  /** A reserved rebalance gone from its journal, looked for as far as the first one that is not over. */
  function MissingReserved(transfers: seq<Transfer>, ids: seq<Id>): (r: Option<Id>)
    ensures r.Some? ==> exists i :: 0 <= i < |ids| && ids[i] == r.value && Lookup(transfers, ids[i]).None?
                                    && forall j :: 0 <= j < i ==> IsOver(transfers, ids[j])
    ensures r.None? ==> forall i :: 0 <= i < |ids| && Lookup(transfers, ids[i]).None? ==>
                                    exists j :: 0 <= j < i && !IsOver(transfers, ids[j])
  {
    if ids == [] then None
    else
      var row := Lookup(transfers, ids[0]);
      if row.None? then Some(ids[0])
      else if !IsTerminal(row.value) then None
      else
        var later := MissingReserved(transfers, ids[1..]);
        assert ids == [ids[0]] + ids[1..];
        later
  }

  predicate IsOver(transfers: seq<Transfer>, id: Id) {
    Lookup(transfers, id).Some? && IsTerminal(Lookup(transfers, id).value)
  }

  function Tracked(previous: Option<Checkpoint>, withdrawals: seq<Withdrawal>): Result<Tracking, Error> {
    var prior := Prior(previous);
    var refreshed := Refresh(withdrawals, if prior.Some? then prior.value.pending else []);
    if refreshed.Err? then Err(refreshed.error)
    else Ok(AdmitAll(previous.Some?, Tracking(if prior.Some? then prior.value.seenIds else {}, refreshed.value), withdrawals))
  }

  /** The specification of `AccountOperatorWithdrawals`. */
  function Accounted(previous: Option<Checkpoint>, totalSats: nat, arkadeSats: nat, rebalance: Option<Rebalance>,
                     transfers: seq<Transfer>, withdrawals: seq<Withdrawal>, history: seq<HistoryRow>)
    : Result<Accounting, Error>
  {
    var tracked := Tracked(previous, withdrawals);
    if tracked.Err? then Err(tracked.error)
    else
      var g := Gather(previous, arkadeSats, rebalance, transfers, tracked.value);
      var missing := MissingReserved(transfers, g.reserved.ids);
      if missing.Some? then Err(MissingRebalance(missing.value))
      else
        var proved := Proved(g, rebalance, transfers, history);
        var explained := ExplainedRows(proved, g.tracking.pending);
        Ok(Conclude(previous, totalSats, rebalance, transfers, history, g,
                    Kept(proved, g.tracking.pending), explained, SumExplained(explained),
                    g.tracking.seen + DroppedIds(proved, g.tracking.pending)))
  }

  // ---- the loops ----

  method TrackRows(previous: Option<Checkpoint>, withdrawals: seq<Withdrawal>) returns (r: Result<Tracking, Error>)
    ensures r == Tracked(previous, withdrawals)
  {
    var prior := Prior(previous);
    var earlier := if prior.Some? then prior.value.pending else [];
    var refreshed := Refresh(withdrawals, earlier);
    if refreshed.Err? { return Err(refreshed.error); }
    var pending := refreshed.value;
    var seen := if prior.Some? then prior.value.seenIds else {};
    ghost var start := Tracking(seen, pending);
    for i := 0 to |withdrawals|
      invariant Tracking(seen, pending) == AdmitAll(previous.Some?, start, withdrawals[..i])
    {
      assert withdrawals[..i + 1][..i] == withdrawals[..i];
      var row := withdrawals[i];
      if row.id in seen || Tracks(pending, row.id) { continue; }
      if previous.None? && row.state == Sent {
        seen := seen + {row.id};
        continue;
      }
      if row.state == FailedWithdrawal {
        seen := seen + {row.id};
        continue;
      }
      pending := pending + [row];
    }
    assert withdrawals[..|withdrawals|] == withdrawals;
    r := Ok(Tracking(seen, pending));
  }

  method ReserveRebalances(previous: Option<Checkpoint>, start: Reserved, transfers: seq<Transfer>) returns (r: Reserved)
    ensures r == ReserveAll(previous, start, transfers)
  {
    var ids, sats: nat := start.ids, start.sats;
    for i := 0 to |transfers|
      invariant Reserved(ids, sats) == ReserveAll(previous, start, transfers[..i])
    {
      assert transfers[..i + 1][..i] == transfers[..i];
      var row := transfers[i];
      if NewSourceDebit(previous, row) && row.id !in ids {
        ids := ids + [row.id];
        sats := sats + row.debitSats;
      }
    }
    assert transfers[..|transfers|] == transfers;
    r := Reserved(ids, sats);
  }

  method Explain(proved: bool, pending: seq<Withdrawal>, seen0: set<Id>)
    returns (remaining: seq<Withdrawal>, explained: seq<Explained>, debit: nat, seen: set<Id>)
    ensures remaining == Kept(proved, pending)
    ensures explained == ExplainedRows(proved, pending)
    ensures debit == SumExplained(explained)
    ensures seen == seen0 + DroppedIds(proved, pending)
  {
    hide Kept, ExplainedRows, DroppedIds;
    NothingPending(proved);
    remaining, explained, debit, seen := [], [], 0, seen0;
    for i := 0 to |pending|
      invariant remaining == Kept(proved, pending[..i])
      invariant explained == ExplainedRows(proved, pending[..i])
      invariant debit == SumExplained(explained)
      invariant seen == seen0 + DroppedIds(proved, pending[..i])
    {
      var held := pending[i];
      ExplainStep(proved, pending, i);
      if held.state == FailedWithdrawal {
        seen := seen + {held.id};
      } else if !proved || held.feeSats.None? || held.reference.None? {
        remaining := remaining + [held];
      } else {
        var sats := held.amountSats + held.feeSats.value;
        var row := Explained(held.id, held.reference.value, sats);
        assert (explained + [row])[..|explained|] == explained;
        debit := debit + sats;
        explained := explained + [row];
        seen := seen + {held.id};
      }
    }
    assert pending[..|pending|] == pending;
  }

  lemma NothingPending(proved: bool)
    ensures Kept(proved, []) == [] && ExplainedRows(proved, []) == [] && DroppedIds(proved, []) == {}
  {
  }

  lemma ExplainStep(proved: bool, pending: seq<Withdrawal>, i: nat)
    requires i < |pending|
    ensures var held := pending[i];
            && DroppedIds(proved, pending[..i + 1]) ==
               DroppedIds(proved, pending[..i]) +
               (if held.state == FailedWithdrawal || Explainable(proved, held) then {held.id} else {})
            && Kept(proved, pending[..i + 1]) ==
               Kept(proved, pending[..i]) +
               (if held.state != FailedWithdrawal && !Explainable(proved, held) then [held] else [])
            && ExplainedRows(proved, pending[..i + 1]) ==
               ExplainedRows(proved, pending[..i]) +
               (if Explainable(proved, held)
                then [Explained(held.id, held.reference.value, held.amountSats + held.feeSats.value)] else [])
  {
    assert pending[..i + 1] == pending[..i] + [pending[i]];
    assert pending[..i + 1][..i] == pending[..i];
  }

  method AccountOperatorWithdrawals(previous: Option<Checkpoint>, totalSats: nat, arkadeSats: nat,
                                    rebalance: Option<Rebalance>, transfers: seq<Transfer>,
                                    withdrawals: seq<Withdrawal>, history: seq<HistoryRow>)
    returns (r: Result<Accounting, Error>)
    ensures r == Accounted(previous, totalSats, arkadeSats, rebalance, transfers, withdrawals, history)
  {
    var tracked := TrackRows(previous, withdrawals);
    if tracked.Err? { return Err(tracked.error); }
    var tracking := tracked.value;
    var live := Live(tracking.pending);
    var reserved := PriorReserved(previous);
    if live != [] {
      reserved := ReserveRebalances(previous, reserved, transfers);
    }
    var g := GatherWith(previous, arkadeSats, rebalance, tracking, live, reserved);
    var missing := MissingReserved(transfers, g.reserved.ids);
    if missing.Some? { return Err(MissingRebalance(missing.value)); }
    var proved := Proved(g, rebalance, transfers, history);
    var remaining, explained, debit, seen := Explain(proved, tracking.pending, tracking.seen);
    r := Ok(Conclude(previous, totalSats, rebalance, transfers, history, g, remaining, explained, debit, seen));
  }
}
