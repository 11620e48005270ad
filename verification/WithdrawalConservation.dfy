/**
 * Operator withdrawals are conserved over whole runs: each is explained at most once, all
 * live ones together or none, and what is explained never exceeds what the Arkade balance
 * was seen to lose, less the rebalance debits proved in the same window.
 */
module WithdrawalConservation {
  import opened Util
  import opened CheckpointTypes
  import opened Checkpoints
  import opened CheckpointWarnings
  import opened WithdrawalAccounting
  import R = Rebalances
  import Store = WithdrawalStore

  // ---- who is outstanding ----

  ghost predicate DistinctRows(rows: seq<Withdrawal>) {
    forall i, j :: 0 <= i < j < |rows| ==> rows[i].id != rows[j].id
  }

  /** The tracked rows are told apart by id, and none of them has been dealt with. */
  ghost predicate Outstanding(t: Tracking) {
    DistinctRows(t.pending) && forall row :: row in t.pending ==> row.id !in t.seen
  }

  function ExplainedIds(rows: seq<Explained>): (r: set<Id>)
    ensures forall e :: e in rows ==> e.id in r
  {
    set e | e in rows :: e.id
  }

  ghost predicate DistinctExplained(rows: seq<Explained>) {
    forall i, j :: 0 <= i < j < |rows| ==> rows[i].id != rows[j].id
  }

  /** What every recorded withdrawal state keeps. */
  ghost predicate Settled(w: Withdrawals) {
    && Outstanding(Tracking(w.seenIds, w.pending))
    && DistinctExplained(w.explained)
    && ExplainedIds(w.explained) <= w.seenIds
  }

  ghost predicate SettledBefore(b: Option<Checkpoint>) {
    b.Some? && b.value.withdrawals.Some? ==> Settled(b.value.withdrawals.value)
  }

  function SeenBefore(b: Option<Checkpoint>): set<Id> {
    if Prior(b).Some? then Prior(b).value.seenIds else {}
  }

  lemma {:induction false} RefreshedRows(rows: seq<Withdrawal>, pending: seq<Withdrawal>)
    requires Refresh(rows, pending).Ok?
    ensures var r := Refresh(rows, pending).value;
            |r| == |pending| && forall i :: 0 <= i < |r| ==> r[i].id == pending[i].id && r[i] in rows
  {
    if pending != [] {
      RefreshedRows(rows, pending[..|pending| - 1]);
    }
  }

  lemma {:induction false} AdmittedRows(baseline: bool, t: Tracking, rows: seq<Withdrawal>)
    requires Outstanding(t)
    ensures var r := AdmitAll(baseline, t, rows);
            Outstanding(r) && t.seen <= r.seen && forall row :: row in r.pending ==> row in t.pending || row in rows
  {
    if rows != [] {
      AdmittedRows(baseline, t, rows[..|rows| - 1]);
    }
  }

  /** Everything tracked at a sample is outstanding, and is the journal's own row. */
  lemma TrackedRows(b: Option<Checkpoint>, withdrawals: seq<Withdrawal>)
    requires SettledBefore(b) && Tracked(b, withdrawals).Ok?
    ensures var t := Tracked(b, withdrawals).value;
            Outstanding(t) && SeenBefore(b) <= t.seen && forall row :: row in t.pending ==> row in withdrawals
  {
    var earlier := if Prior(b).Some? then Prior(b).value.pending else [];
    RefreshedRows(withdrawals, earlier);
    var refreshed := Refresh(withdrawals, earlier).value;
    forall row | row in refreshed ensures row in withdrawals && row.id !in SeenBefore(b) {
      var i :| 0 <= i < |refreshed| && refreshed[i] == row;
      assert earlier[i].id == row.id && earlier[i] in earlier;
    }
    AdmittedRows(b.Some?, Tracking(SeenBefore(b), refreshed), withdrawals);
  }

  // ---- all together or none ----

  /** Rows as the withdrawal store keeps them. */
  ghost predicate Stored(rows: seq<Withdrawal>) {
    forall row :: row in rows ==> Store.RowValid(row)
  }

  lemma {:induction false} DistinctFilter(pending: seq<Withdrawal>, keep: Withdrawal -> bool)
    requires DistinctRows(pending)
    ensures DistinctRows(Filter(pending, keep))
  {
    if pending != [] {
      var n := |pending| - 1;
      DistinctFilter(pending[..n], keep);
      forall row | row in Filter(pending[..n], keep) ensures row.id != pending[n].id {
        var i :| 0 <= i < n && pending[..n][i] == row;
        assert pending[i] == row;
      }
    }
  }

  /** What stays tracked is told apart still, and none of it has just been dealt with. */
  lemma KeptRows(proved: bool, pending: seq<Withdrawal>)
    requires DistinctRows(pending)
    ensures DistinctRows(Kept(proved, pending))
    ensures forall row :: row in Kept(proved, pending) ==> row in pending && row.id !in DroppedIds(proved, pending)
  {
    DistinctFilter(pending, (held: Withdrawal) => held.state != FailedWithdrawal && !Explainable(proved, held));
    forall row | row in Kept(proved, pending) ensures row in pending && row.id !in DroppedIds(proved, pending) {
      forall other | other in pending && other.id == row.id ensures other == row {
        var i, j :| 0 <= i < |pending| && 0 <= j < |pending| && pending[i] == row && pending[j] == other;
      }
    }
  }

  /** An explained row, and the tracked withdrawal it stands for. */
  ghost predicate Stands(proved: bool, pending: seq<Withdrawal>, e: Explained) {
    exists row :: row in pending && row.id == e.id && Explainable(proved, row)
  }

  /** The explained rows are one for each withdrawal that can be explained. */
  lemma {:induction false} ExplainedOnes(proved: bool, pending: seq<Withdrawal>)
    requires DistinctRows(pending)
    ensures DistinctExplained(ExplainedRows(proved, pending))
    ensures forall e :: e in ExplainedRows(proved, pending) ==> Stands(proved, pending, e)
    ensures forall row :: row in pending && Explainable(proved, row) ==> row.id in ExplainedIds(ExplainedRows(proved, pending))
  {
    if pending != [] {
      var n := |pending| - 1;
      var earlier := ExplainedRows(proved, pending[..n]);
      ExplainedOnes(proved, pending[..n]);
      assert pending == pending[..n] + [pending[n]];
      forall e | e in earlier ensures Stands(proved, pending, e) && e.id != pending[n].id {
        var row :| row in pending[..n] && row.id == e.id && Explainable(proved, row);
        assert row in pending;
      }
      assert ExplainedIds(earlier) <= ExplainedIds(ExplainedRows(proved, pending));
    }
  }

  /**
   * When a sample is proved, exactly its live withdrawals are explained, and only ones still
   * being prepared stay tracked; when it is not, nothing is explained.
   */
  lemma TogetherOrNone(proved: bool, history: seq<HistoryRow>, pending: seq<Withdrawal>)
    requires Stored(pending) && DistinctRows(pending)
    requires proved ==> SendsProved(Live(pending), history)
    ensures ExplainedIds(ExplainedRows(proved, pending)) == if proved then LiveIds(pending) else {}
    ensures proved ==> forall row :: row in Kept(proved, pending) ==> row.state == Preparing
    ensures SumExplained(ExplainedRows(proved, pending)) == if proved then SumDebits(Live(pending)) else 0
  {
    ExplainedOnes(proved, pending);
    if proved {
      LiveOnes(pending, history);
      SameSum(pending, history);
    } else {
      NoneExplained(pending);
    }
  }

  function LiveIds(pending: seq<Withdrawal>): set<Id> {
    set row | row in pending && IsLive(row) :: row.id
  }

  lemma {:induction false} NoneExplained(pending: seq<Withdrawal>)
    ensures ExplainedRows(false, pending) == []
  {
    if pending != [] { NoneExplained(pending[..|pending| - 1]); }
  }

  lemma LiveOnes(pending: seq<Withdrawal>, history: seq<HistoryRow>)
    requires Stored(pending) && SendsProved(Live(pending), history)
    ensures forall row :: row in pending ==> Explainable(true, row) == IsLive(row)
  {
    forall row | row in pending ensures Explainable(true, row) == IsLive(row) {
      assert Store.RowValid(row);
      if IsLive(row) { assert row in Live(pending) && ExactDebit(row).Some?; }
    }
  }

  lemma {:induction false} SameSum(pending: seq<Withdrawal>, history: seq<HistoryRow>)
    requires Stored(pending) && SendsProved(Live(pending), history)
    ensures SumExplained(ExplainedRows(true, pending)) == SumDebits(Live(pending))
  {
    if pending != [] {
      var n := |pending| - 1;
      var earlier := pending[..n];
      assert pending == earlier + [pending[n]];
      assert forall held :: held in Live(earlier) ==> held in Live(pending);
      SameSum(earlier, history);
      LiveOnes(pending, history);
      if IsLive(pending[n]) {
        assert Live(pending) == Live(earlier) + [pending[n]];
        assert Live(pending)[..|Live(pending)| - 1] == Live(earlier);
        assert pending[n] in Live(pending) && ExactDebit(pending[n]).Some?;
        var e := Explained(pending[n].id, pending[n].reference.value, pending[n].amountSats + pending[n].feeSats.value);
        assert ExplainedRows(true, pending) == ExplainedRows(true, earlier) + [e];
        assert ExplainedRows(true, pending)[..|ExplainedRows(true, earlier)|] == ExplainedRows(true, earlier);
      } else {
        assert Live(pending) == Live(earlier);
        assert ExplainedRows(true, pending) == ExplainedRows(true, earlier);
      }
    }
  }

  // ---- one sample ----

  /** A sample keeps the tracked rows outstanding, forgets no id, and explains no id dealt with before. */
  lemma SettledStep(b: Option<Checkpoint>, totalSats: nat, arkadeSats: nat, r: Option<Rebalance>,
                    transfers: seq<Transfer>, withdrawals: seq<Withdrawal>, history: seq<HistoryRow>)
    requires SettledBefore(b)
    requires Accounted(b, totalSats, arkadeSats, r, transfers, withdrawals, history).Ok?
    ensures var w := Accounted(b, totalSats, arkadeSats, r, transfers, withdrawals, history).value.state;
            Settled(w) && SeenBefore(b) <= w.seenIds && ExplainedIds(w.explained) !! SeenBefore(b)
  {
    hide Refresh, AdmitAll, Live, Proved, Basis, ReserveAll;
    TrackedRows(b, withdrawals);
    var t := Tracked(b, withdrawals).value;
    var g := Gather(b, arkadeSats, r, transfers, t);
    var proved := Proved(g, r, transfers, history);
    KeptRows(proved, t.pending);
    ExplainedOnes(proved, t.pending);
    var w := Accounted(b, totalSats, arkadeSats, r, transfers, withdrawals, history).value.state;
    assert w.explained == ExplainedRows(proved, t.pending) && w.pending == Kept(proved, t.pending);
    forall id | id in ExplainedIds(w.explained) ensures id in w.seenIds && id !in SeenBefore(b) {
      var e :| e in w.explained && e.id == id;
      assert Stands(proved, t.pending, e);
    }
  }

  /** Nothing is still deferred once everything left is only being prepared. */
  lemma SampleConserves(b: Option<Checkpoint>, totalSats: nat, arkadeSats: nat, r: Option<Rebalance>,
                        transfers: seq<Transfer>, withdrawals: seq<Withdrawal>, history: seq<HistoryRow>)
    requires SettledBefore(b) && Stored(withdrawals)
    requires Accounted(b, totalSats, arkadeSats, r, transfers, withdrawals, history).Ok?
    ensures var pending := Tracked(b, withdrawals).value.pending;
            var g := Gather(b, arkadeSats, r, transfers, Tracked(b, withdrawals).value);
            var proved := Proved(g, r, transfers, history);
            var a := Accounted(b, totalSats, arkadeSats, r, transfers, withdrawals, history).value;
            var lost := PriorDrop(b) + R.SourceDrop(b, arkadeSats);
            && ExplainedIds(a.state.explained) == (if proved then LiveIds(pending) else {})
            && a.explainedDebitSats == SumExplained(a.state.explained)
            && (proved ==> a.explainedDebitSats + SumActual(transfers, g.basis, history, g.reserved.ids) <= lost)
            && (!proved ==> a.explainedDebitSats == 0)
            && (proved ==> a.state.deferred.None?)
            && a.state.observedSourceDropSats == (if a.state.deferred.Some? then lost else 0)
  {
    hide Refresh, AdmitAll, Basis, ReserveAll, EvidenceComplete, Tracked, SettledBefore;
    TrackedRows(b, withdrawals);
    var t := Tracked(b, withdrawals).value;
    var g := Gather(b, arkadeSats, r, transfers, t);
    var proved := Proved(g, r, transfers, history);
    TogetherOrNone(proved, history, t.pending);
    KeptRows(proved, t.pending);
    forall row | row in Kept(proved, t.pending) && row.state != Preparing ensures row in Live(t.pending) {
    }
  }

  // ---- the evidence ----

  function AmountAt(history: seq<HistoryRow>, i: nat): nat {
    if i < |history| && history[i].amount.Some? then history[i].amount.value else 0
  }

  function AmountsAt(history: seq<HistoryRow>, indexes: seq<nat>): nat {
    if indexes == [] then 0
    else AmountsAt(history, indexes[..|indexes| - 1]) + AmountAt(history, indexes[|indexes| - 1])
  }

  lemma {:induction false} AmountsOfBoth(history: seq<HistoryRow>, some: seq<nat>, more: seq<nat>)
    ensures AmountsAt(history, some + more) == AmountsAt(history, some) + AmountsAt(history, more)
  {
    if more == [] {
      assert some + more == some;
    } else {
      var n := |more| - 1;
      assert (some + more)[..|some + more| - 1] == some + more[..n];
      AmountsOfBoth(history, some, more[..n]);
    }
  }

  lemma {:induction false} IndexesInRange(reference: Option<Reference>, history: seq<HistoryRow>, n: nat)
    requires n <= |history|
    ensures forall i :: i in MatchedIndexes(reference, history, n) ==> i < n
  {
    if n > 0 { IndexesInRange(reference, history, n - 1); }
  }

  lemma {:induction false} AllIndexesInRange(references: seq<Option<Reference>>, history: seq<HistoryRow>)
    ensures forall i :: i in AllMatchedIndexes(references, history) ==> i < |history|
  {
    if references != [] {
      AllIndexesInRange(references[..|references| - 1], history);
      IndexesInRange(references[|references| - 1], history, |history|);
    }
  }

  /** A reference's debit is the sum of the history rows found at its indexes. */
  lemma {:induction false} DebitAtIndexes(reference: Reference, history: seq<HistoryRow>, n: nat)
    requires n <= |history| && SumAmounts(Matched(reference, history[..n])).Some?
    ensures SumAmounts(Matched(reference, history[..n])).value
            == AmountsAt(history, MatchedIndexes(Some(reference), history, n))
  {
    if n > 0 {
      MatchedStep(reference, history, n);
      DebitAtIndexes(reference, history, n - 1);
      var indexes := MatchedIndexes(Some(reference), history, n - 1);
      if Matches(history[n - 1], reference) {
        assert (indexes + [n - 1])[..|indexes|] == indexes;
      } else {
        assert indexes + [] == indexes;
      }
    }
  }

  lemma MatchedStep(reference: Reference, history: seq<HistoryRow>, n: nat)
    requires 0 < n <= |history| && SumAmounts(Matched(reference, history[..n])).Some?
    ensures var earlier, row := SumAmounts(Matched(reference, history[..n - 1])), history[n - 1];
            && earlier.Some?
            && SumAmounts(Matched(reference, history[..n])).value
               == earlier.value + if Matches(row, reference) then AmountAt(history, n - 1) else 0
  {
    assert history[..n][..n - 1] == history[..n - 1];
    var earlier := Matched(reference, history[..n - 1]);
    if Matches(history[n - 1], reference) {
      assert Matched(reference, history[..n]) == earlier + [history[n - 1]];
      assert (earlier + [history[n - 1]])[..|earlier|] == earlier;
    } else {
      assert Matched(reference, history[..n]) == earlier;
    }
  }

  /** The debits of `references`, added up as the history states them. */
  function DebitsOf(references: seq<Option<Reference>>, history: seq<HistoryRow>): nat {
    if references == [] then 0
    else
      var last := references[|references| - 1];
      DebitsOf(references[..|references| - 1], history) +
      if last.Some? && HistoryDebit(last.value, history).Some? then HistoryDebit(last.value, history).value else 0
  }

  ghost predicate AllDebitsKnown(references: seq<Option<Reference>>, history: seq<HistoryRow>) {
    forall reference :: reference in references ==> reference.Some? && HistoryDebit(reference.value, history).Some?
  }

  lemma {:induction false} DebitsAtIndexes(references: seq<Option<Reference>>, history: seq<HistoryRow>)
    requires AllDebitsKnown(references, history)
    ensures DebitsOf(references, history) == AmountsAt(history, AllMatchedIndexes(references, history))
  {
    if references != [] {
      var n := |references| - 1;
      DebitsAtIndexes(references[..n], history);
      assert history[..|history|] == history;
      DebitAtIndexes(references[n].value, history, |history|);
      AmountsOfBoth(history, AllMatchedIndexes(references[..n], history),
                    MatchedIndexes(references[n], history, |history|));
    }
  }

  lemma {:induction false} DebitsOfBoth(some: seq<Option<Reference>>, more: seq<Option<Reference>>, history: seq<HistoryRow>)
    ensures DebitsOf(some + more, history) == DebitsOf(some, history) + DebitsOf(more, history)
  {
    if more == [] {
      assert some + more == some;
    } else {
      assert (some + more)[..|some + more| - 1] == some + more[..|more| - 1];
      DebitsOfBoth(some, more[..|more| - 1], history);
    }
  }

  function SendReferences(live: seq<Withdrawal>): (r: seq<Option<Reference>>)
    ensures |r| == |live| && forall i :: 0 <= i < |r| ==> r[i] == live[i].reference
  {
    seq(|live|, i requires 0 <= i < |live| => live[i].reference)
  }

  function FundingReferences(transfers: seq<Transfer>, ids: seq<Id>): (r: seq<Option<Reference>>)
    ensures |r| == |ids| && forall i :: 0 <= i < |r| ==> r[i] == FundingOf(transfers, ids[i])
  {
    seq(|ids|, i requires 0 <= i < |ids| => FundingOf(transfers, ids[i]))
  }

  lemma {:induction false} SendsPaid(live: seq<Withdrawal>, history: seq<HistoryRow>)
    requires SendsProved(live, history)
    ensures AllDebitsKnown(SendReferences(live), history) && SumDebits(live) == DebitsOf(SendReferences(live), history)
  {
    if live != [] {
      var n := |live| - 1;
      SendsPaid(live[..n], history);
      assert SendReferences(live)[..n] == SendReferences(live[..n]);
      assert live[n] in live;
      assert forall r :: r in SendReferences(live) ==> r in SendReferences(live[..n]) || r == live[n].reference by {
        assert SendReferences(live) == SendReferences(live[..n]) + [live[n].reference];
      }
    }
  }

  lemma {:induction false} RebalancesPaid(transfers: seq<Transfer>, basis: map<Id, nat>, history: seq<HistoryRow>, ids: seq<Id>)
    requires forall id :: id in ids ==> ActualDebit(transfers, basis, history, id).Some?
    ensures AllDebitsKnown(FundingReferences(transfers, ids), history)
    ensures SumActual(transfers, basis, history, ids) == DebitsOf(FundingReferences(transfers, ids), history)
  {
    hide HistoryDebit, ActualDebit;
    if ids != [] {
      var n := |ids| - 1;
      RebalancesPaid(transfers, basis, history, ids[..n]);
      assert ids[n] in ids;
      assert FundingReferences(transfers, ids) == FundingReferences(transfers, ids[..n]) + [FundingOf(transfers, ids[n])];
    }
  }

  /**
   * What a proved sample explains, with the rebalance debits set against it, is exactly the sum
   * of settled rows of the wallet's own history, no row counted twice.
   */
  lemma HistoryPaysOnce(g: Gathered, r: Option<Rebalance>, transfers: seq<Transfer>, history: seq<HistoryRow>)
    requires Proved(g, r, transfers, history)
    ensures var indexes := AllMatchedIndexes(References(g.live, transfers, g.reserved.ids), history);
            && (forall i :: i in indexes ==> i < |history|)
            && NoRepeats(indexes)
            && SumDebits(g.live) + SumActual(transfers, g.basis, history, g.reserved.ids) == AmountsAt(history, indexes)
  {
    var sends, fundings := SendReferences(g.live), FundingReferences(transfers, g.reserved.ids);
    assert References(g.live, transfers, g.reserved.ids) == sends + fundings;
    SendsPaid(g.live, history);
    RebalancesPaid(transfers, g.basis, history, g.reserved.ids);
    DebitsOfBoth(sends, fundings, history);
    DebitsAtIndexes(sends + fundings, history);
    AllIndexesInRange(sends + fundings, history);
  }

  // ---- runs ----

  /** Every reading saw the withdrawal journal as its store keeps it. */
  ghost predicate StoredRun(inputs: seq<Input>) {
    forall t :: 0 <= t < |inputs| && inputs[t].Read? ==> Stored(inputs[t].sample.withdrawals)
  }

  function TransfersOf(s: Sample): seq<Transfer> {
    if s.transfers.Some? then s.transfers.value else []
  }

  function ExplainedOf(c: Checkpoint): seq<Explained> {
    if c.withdrawals.Some? then c.withdrawals.value.explained else []
  }

  /** What the sample gathered, and whether that was proved. */
  ghost function GatheredAt(b: Option<Checkpoint>, s: Sample): Gathered
    requires Account(b, s).Some?
  {
    Gather(b, s.arkadeSats, AccountRebalance(b, s).value, TransfersOf(s), Tracked(b, s.withdrawals).value)
  }

  ghost predicate ProvedAt(b: Option<Checkpoint>, s: Sample)
    requires Account(b, s).Some?
  {
    Proved(GatheredAt(b, s), AccountRebalance(b, s).value, TransfersOf(s), s.history)
  }

  /** The rebalance debits a proved sample sets against the drop before its withdrawals. */
  ghost function RebalanceDebitsAt(b: Option<Checkpoint>, s: Sample): nat
    requires Account(b, s).Some?
  {
    var g := GatheredAt(b, s);
    if ProvedAt(b, s) then SumActual(TransfersOf(s), g.basis, s.history, g.reserved.ids) else 0
  }

  /** One recorded sample: who is explained, from what, and what is left of the window. */
  lemma RecordConserves(b: Option<Checkpoint>, s: Sample, id: nat)
    requires SettledBefore(b) && Stored(s.withdrawals) && Record(b, s, id).Some?
    ensures Account(b, s).Some?
    ensures var c := Record(b, s, id).value;
            var explained := ExplainedOf(c);
            var lost := PriorDrop(b) + R.SourceDrop(b, s.arkadeSats);
            && c.withdrawals.Some? && Settled(c.withdrawals.value)
            && SeenBefore(b) <= c.withdrawals.value.seenIds && ExplainedIds(explained) !! SeenBefore(b)
            && ExplainedIds(explained) == (if ProvedAt(b, s) then LiveIds(Tracked(b, s.withdrawals).value.pending) else {})
            && (ProvedAt(b, s) ==> SumExplained(explained) + RebalanceDebitsAt(b, s) <= lost && !WithdrawalDeferred(c.withdrawals))
            && (!ProvedAt(b, s) ==> SumExplained(explained) == 0)
            && c.withdrawals.value.observedSourceDropSats == if WithdrawalDeferred(c.withdrawals) then lost else 0
  {
    hide Accounted, Proved, Gather, AccountRebalance, Tracked, Drops, Changes, BackRows, Capped, OpenRows, SettledBefore;
    var r, rows := AccountRebalance(b, s).value, TransfersOf(s);
    SettledStep(b, s.totalSats, s.arkadeSats, r, rows, s.withdrawals, s.history);
    SampleConserves(b, s.totalSats, s.arkadeSats, r, rows, s.withdrawals, s.history);
  }

  /** Sats the Arkade balance was seen to lose, and what of them was explained, over a run. */
  datatype Totals = Totals(lost: nat, explained: nat, rebalances: nat, window: nat)

  ghost function TotalsOf(inputs: seq<Input>): Totals {
    if inputs == [] then Totals(0, 0, 0, 0)
    else
      var n := |inputs| - 1;
      var t, b := TotalsOf(inputs[..n]), Baseline(Replay(inputs[..n]));
      if inputs[n].Unread? || Record(b, inputs[n].sample, inputs[n].id).None? then t
      else Added(t, b, inputs[n].sample, Record(b, inputs[n].sample, inputs[n].id).value)
  }

  ghost function Added(t: Totals, b: Option<Checkpoint>, s: Sample, c: Checkpoint): Totals
    requires Account(b, s).Some?
  {
    var drop := R.SourceDrop(b, s.arkadeSats);
    Totals(t.lost + drop, t.explained + SumExplained(ExplainedOf(c)), t.rebalances + RebalanceDebitsAt(b, s),
           if WithdrawalDeferred(c.withdrawals) then t.window + drop else 0)
  }

  ghost function AllExplained(entries: seq<Entry>): set<Id> {
    if entries == [] then {}
    else
      AllExplained(entries[..|entries| - 1]) +
      if entries[|entries| - 1].Recorded? then ExplainedIds(ExplainedOf(entries[|entries| - 1].cp)) else {}
  }

  /** The run so far: nothing explained twice, and every sat explained or still held was first lost. */
  ghost predicate Conserved(inputs: seq<Input>) {
    var b, t := Baseline(Replay(inputs)), TotalsOf(inputs);
    && SettledBefore(b)
    && AllExplained(Replay(inputs)) <= SeenBefore(b)
    && PriorDrop(b) == t.window
    && t.explained + t.rebalances + t.window <= t.lost
  }

  lemma ConservedStep(inputs: seq<Input>)
    requires inputs != [] && StoredRun(inputs) && Conserved(inputs[..|inputs| - 1])
    ensures Conserved(inputs)
  {
    hide Record, Replay, Baseline, ExplainedOf, SettledBefore, Account, ProvedAt, Settled;
    var n := |inputs| - 1;
    var earlier := Replay(inputs[..n]);
    var b := Baseline(earlier);
    ReplayStep(inputs);
    var entry := StepEntry(b, inputs[n]);
    assert (earlier + [entry])[..n] == earlier;
    BaselineAppend(earlier, entry);
    if entry.Recorded? {
      RecordConserves(b, inputs[n].sample, inputs[n].id);
      NextBefore(entry.cp);
    }
  }

  lemma NextBefore(c: Checkpoint)
    requires c.withdrawals.Some? && Settled(c.withdrawals.value)
    ensures SettledBefore(Some(c)) && ExplainedIds(ExplainedOf(c)) <= SeenBefore(Some(c))
  {
  }

  lemma {:induction false} RunConserved(inputs: seq<Input>)
    requires StoredRun(inputs)
    ensures Conserved(inputs)
  {
    if inputs != [] {
      hide *;
      PrefixStored(inputs, |inputs| - 1);
      RunConserved(inputs[..|inputs| - 1]);
      ConservedStep(inputs);
    }
  }

  lemma PrefixStored(inputs: seq<Input>, n: nat)
    requires StoredRun(inputs) && n <= |inputs|
    ensures StoredRun(inputs[..n])
  {
  }

  /** Over any run, all that is explained and all rebalance debits set against it were first seen to be lost. */
  lemma ExplainedWithinLost(inputs: seq<Input>)
    requires StoredRun(inputs)
    ensures TotalsOf(inputs).explained + TotalsOf(inputs).rebalances <= TotalsOf(inputs).lost
  {
    hide Record, Replay, Baseline, TotalsOf;
    RunConserved(inputs);
  }

  /**
   * The rows `explained` are all the live withdrawals of the sample or none, none of them among
   * `earlier`, and with the rebalance debits proved beside them they fit into `lost`.
   */
  ghost predicate ExplainsOnce(b: Option<Checkpoint>, s: Sample, explained: seq<Explained>, earlier: set<Id>, lost: nat)
    requires Account(b, s).Some?
  {
    && ExplainedIds(explained) == (if ProvedAt(b, s) then LiveIds(Tracked(b, s.withdrawals).value.pending) else {})
    && DistinctExplained(explained)
    && ExplainedIds(explained) !! earlier
    && SumExplained(explained) + RebalanceDebitsAt(b, s) <= lost
  }

  lemma RecordExplains(b: Option<Checkpoint>, s: Sample, id: nat, earlier: set<Id>, window: nat)
    requires SettledBefore(b) && Stored(s.withdrawals) && Record(b, s, id).Some?
    requires earlier <= SeenBefore(b) && window == PriorDrop(b)
    ensures Account(b, s).Some?
    ensures ExplainsOnce(b, s, ExplainedOf(Record(b, s, id).value), earlier, window + R.SourceDrop(b, s.arkadeSats))
  {
    hide Record, SettledBefore, Account, ProvedAt, Tracked, GatheredAt, SumActual, R.SourceDrop;
    RecordConserves(b, s, id);
  }

  /**
   * After any run, the next sample recorded explains all its live withdrawals or none, each for
   * the first time in the run, out of what the balance lost since the last reset less the
   * rebalance debits proved with them.
   */
  lemma ExplainedAtSample(inputs: seq<Input>, s: Sample, id: nat)
    requires StoredRun(inputs) && Stored(s.withdrawals) && Record(Baseline(Replay(inputs)), s, id).Some?
    ensures var b := Baseline(Replay(inputs));
            && Account(b, s).Some?
            && ExplainsOnce(b, s, ExplainedOf(Record(b, s, id).value), AllExplained(Replay(inputs)),
                            TotalsOf(inputs).window + R.SourceDrop(b, s.arkadeSats))
  {
    hide Record, Replay, Baseline, SettledBefore, Account, TotalsOf, AllExplained, ExplainsOnce, ExplainedOf;
    RunConserved(inputs);
    RecordExplains(Baseline(Replay(inputs)), s, id, AllExplained(Replay(inputs)), TotalsOf(inputs).window);
  }
}
