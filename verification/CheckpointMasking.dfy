/**
 * Bounded masking over whole runs: with no withdrawals and no overlapping rebalances, what
 * BTC is compared on stays within what the rebalance journal itself can account for.
 */
module CheckpointMasking {
  import opened Util
  import opened CheckpointTypes
  import opened Checkpoints
  import opened CheckpointWarnings
  import opened CheckpointDeferral
  import opened RebalanceMasking
  import R = Rebalances
  import W = WithdrawalAccounting

  /** A reading of a deployment that only ever rebalances, one transfer allowed at a time. */
  ghost predicate PlainSample(s: Sample) {
    && s.transfers.Some?
    && DistinctTransfers(s.transfers.value)
    && s.withdrawals == []
    && forall row :: row in s.transfers.value ==> row.overridePendingIds == []
  }

  /** Every reading is plain, and the journal goes on listing what it listed. */
  ghost predicate PlainRun(inputs: seq<Input>) {
    && (forall t :: 0 <= t < |inputs| && inputs[t].Read? ==> PlainSample(inputs[t].sample))
    && forall t, u :: 0 <= t < u < |inputs| && inputs[t].Read? && inputs[u].Read? ==>
         Succeeds(inputs[t].sample.transfers.value, inputs[u].sample.transfers.value)
  }

  ghost predicate NoWithdrawals(w: Option<Withdrawals>) {
    w.Some? && w.value.pending == [] && w.value.rebalanceIds == [] && w.value.deferred.None?
  }

  /** What holds at every checkpoint of a plain run whose journal was `rows`. */
  ghost predicate Bounded(c: Checkpoint, rows: seq<Transfer>) {
    && c.rebalance.Some?
    && Masked(c.rebalance.value, c.totalSats, rows)
    && (RebalanceDeferred(c.rebalance) ==> c.rebalance.value.attributionDeferred.value.overrideId.None?)
    && NoWithdrawals(c.withdrawals)
    && Comparison(c) == c.rebalance.value.comparisonTotalSats
  }

  ghost predicate BoundedBaseline(b: Option<Checkpoint>, earlier: seq<Transfer>) {
    b.Some? ==> Bounded(b.value, earlier) && DistinctTransfers(earlier)
  }

  lemma PlainRebalance(b: Option<Checkpoint>, earlier: seq<Transfer>, s: Sample)
    requires PlainSample(s) && BoundedBaseline(b, earlier)
    requires b.Some? ==> Succeeds(earlier, s.transfers.value)
    ensures var r := AccountRebalance(b, s);
            r.Ok? && r.value.Some? && Masked(r.value.value, s.totalSats, s.transfers.value)
            && (RebalanceDeferred(r.value) ==> r.value.value.attributionDeferred.value.overrideId.None?)
  {
    var rows := s.transfers.value;
    assert R.FindMarker(R.PriorRebalance(b), rows).None?;
    assert R.AccountDeferredRebalances(b, s.totalSats, rows, s.startedAt).None?;
    if b.Some? {
      MaskedStep(b.value, earlier, rows, s.totalSats, s.arkadeSats);
    } else {
      MaskedFirst(rows, s.totalSats, s.arkadeSats);
    }
  }

  lemma PlainWithdrawals(b: Option<Checkpoint>, s: Sample, r: Option<Rebalance>, rows: seq<Transfer>)
    requires b.Some? ==> NoWithdrawals(b.value.withdrawals)
    requires r.Some?
    ensures var w := W.Accounted(b, s.totalSats, s.arkadeSats, r, rows, [], s.history);
            w.Ok? && w.value.rebalanceCorrectionSats == 0 && NoWithdrawals(Some(w.value.state))
            && w.value.state.comparisonTotalSats == r.value.comparisonTotalSats
  {
    var tracked := W.Tracked(b, []);
    assert tracked.Ok? && tracked.value.pending == [];
    var g := W.Gather(b, s.arkadeSats, r, rows, tracked.value);
    assert g.live == [] && g.reserved.ids == [];
    assert !W.Proved(g, r, rows, s.history);
    assert W.Kept(false, []) == [] && W.ExplainedRows(false, []) == [];
  }

  lemma PlainAccount(b: Option<Checkpoint>, earlier: seq<Transfer>, s: Sample)
    requires PlainSample(s) && BoundedBaseline(b, earlier)
    requires b.Some? ==> Succeeds(earlier, s.transfers.value)
    ensures Account(b, s).Some?
    ensures var a := Account(b, s).value;
            && a.rebalance.Some? && Masked(a.rebalance.value, s.totalSats, s.transfers.value)
            && (RebalanceDeferred(a.rebalance) ==> a.rebalance.value.attributionDeferred.value.overrideId.None?)
            && NoWithdrawals(Some(a.withdrawals))
            && a.withdrawals.comparisonTotalSats == a.rebalance.value.comparisonTotalSats
  {
    PlainRebalance(b, earlier, s);
    PlainWithdrawals(b, s, AccountRebalance(b, s).value, s.transfers.value);
  }

  lemma BoundedStep(b: Option<Checkpoint>, earlier: seq<Transfer>, s: Sample, id: nat)
    requires PlainSample(s) && BoundedBaseline(b, earlier)
    requires b.Some? ==> Succeeds(earlier, s.transfers.value)
    ensures Record(b, s, id).Some? && Bounded(Record(b, s, id).value, s.transfers.value)
  {
    PlainAccount(b, earlier, s);
    var a := Account(b, s).value;
    var ids := HeldNow(b, a.rebalance, Some(a.withdrawals));
    var held := HeldRows(Followings(b, a.explainedDebit), ids);
    assert Record(b, s, id).value.rebalance == WithRebalanceHeld(a.rebalance, ids, held);
    assert Record(b, s, id).value.withdrawals == WithWithdrawalHeld(Some(a.withdrawals), ids, held);
  }

  /** The journal of the last recorded reading. */
  ghost function LastJournal(inputs: seq<Input>): seq<Transfer> {
    if inputs == [] then []
    else
      var last := inputs[|inputs| - 1];
      if last.Read? && last.sample.transfers.Some? then last.sample.transfers.value
      else LastJournal(inputs[..|inputs| - 1])
  }

  lemma {:induction false} LastRead(inputs: seq<Input>) returns (t: nat)
    requires PlainRun(inputs) && exists k :: 0 <= k < |inputs| && inputs[k].Read?
    ensures t < |inputs| && inputs[t].Read? && LastJournal(inputs) == inputs[t].sample.transfers.value
  {
    var n := |inputs| - 1;
    if inputs[n].Read? { return n; }
    assert PlainRun(inputs[..n]);
    var k :| 0 <= k < |inputs| && inputs[k].Read?;
    assert inputs[..n][k] == inputs[k];
    t := LastRead(inputs[..n]);
  }

  lemma {:induction false} NoneRead(inputs: seq<Input>)
    requires forall k :: 0 <= k < |inputs| ==> inputs[k].Unread?
    ensures Baseline(Replay(inputs)).None?
  {
    if inputs != [] {
      var n := |inputs| - 1;
      NoneRead(inputs[..n]);
      ReplayStep(inputs);
      BaselineAppend(Replay(inputs[..n]), StepEntry(Baseline(Replay(inputs[..n])), inputs[n]));
    }
  }

  lemma {:induction false} RunBounded(inputs: seq<Input>)
    requires PlainRun(inputs)
    ensures BoundedBaseline(Baseline(Replay(inputs)), LastJournal(inputs))
    ensures inputs != [] && inputs[|inputs| - 1].Read? ==> Replay(inputs)[|inputs| - 1].Recorded?
  {
    hide Record, Replay, Baseline;
    if inputs == [] {
      NoneRead(inputs);
    } else {
      var n := |inputs| - 1;
      assert PlainRun(inputs[..n]);
      RunBounded(inputs[..n]);
      ReplayStep(inputs);
      var b := Baseline(Replay(inputs[..n]));
      BaselineAppend(Replay(inputs[..n]), StepEntry(b, inputs[n]));
      if inputs[n].Read? {
        if b.Some? {
          JournalBefore(inputs);
        }
        BoundedStep(b, LastJournal(inputs[..n]), inputs[n].sample, inputs[n].id);
      }
    }
  }

  lemma JournalBefore(inputs: seq<Input>)
    requires PlainRun(inputs) && inputs != [] && inputs[|inputs| - 1].Read?
    requires Baseline(Replay(inputs[..|inputs| - 1])).Some?
    ensures Succeeds(LastJournal(inputs[..|inputs| - 1]), inputs[|inputs| - 1].sample.transfers.value)
  {
    hide Record, Replay, Baseline, Succeeds;
    var n := |inputs| - 1;
    assert PlainRun(inputs[..n]);
    if forall k :: 0 <= k < n ==> inputs[..n][k].Unread? {
      NoneRead(inputs[..n]);
    } else {
      var t := LastRead(inputs[..n]);
      assert inputs[..n][t] == inputs[t];
    }
  }

  lemma BoundedAt(inputs: seq<Input>, t: nat)
    requires PlainRun(inputs) && t < |inputs| && inputs[t].Read?
    ensures Replay(inputs)[t].Recorded? && Bounded(Replay(inputs)[t].cp, inputs[t].sample.transfers.value)
  {
    hide Record, Replay, Baseline, Bounded;
    var prefix := inputs[..t + 1];
    assert PlainRun(prefix) && prefix[t] == inputs[t];
    ReplayPrefix(inputs, t + 1);
    assert Replay(inputs)[t] == Replay(prefix)[t];
    RunBounded(prefix);
    ReplayStep(prefix);
    BaselineAppend(Replay(prefix[..t]), StepEntry(Baseline(Replay(prefix[..t])), inputs[t]));
  }

  /**
   * At every reading of a plain run: a free comparison is the raw total plus the fees excused
   * so far and what is in flight; each amount in flight is within its observed debit, and that
   * within the journal's; and the fees excused are within the `feeSats` of completed transfers.
   */
  lemma BoundedMasking(inputs: seq<Input>, t: nat)
    requires PlainRun(inputs) && t < |inputs| && inputs[t].Read?
    ensures Replay(inputs)[t].Recorded?
    ensures var c, rows := Replay(inputs)[t].cp, inputs[t].sample.transfers.value;
            && c.rebalance.Some?
            && (!Deferred(c) ==>
                  Comparison(c) - c.totalSats == c.rebalance.value.feeAllowanceUsedSats + R.RemainingSats(c.rebalance.value.pending))
            && (forall h :: h in c.rebalance.value.pending ==>
                  && Lookup(rows, h.id).Some?
                  && h.remainingSats <= h.observedDebitSats <= Lookup(rows, h.id).value.debitSats)
            && 0 <= c.rebalance.value.feeAllowanceUsedSats <= CompletedFees(rows)
  {
    hide Record, Replay, Baseline;
    BoundedAt(inputs, t);
    var c, rows := Replay(inputs)[t].cp, inputs[t].sample.transfers.value;
    forall h | h in c.rebalance.value.pending
      ensures Lookup(rows, h.id).Some?
      ensures h.remainingSats <= h.observedDebitSats <= Lookup(rows, h.id).value.debitSats
    {
      var k :| 0 <= k < |c.rebalance.value.pending| && c.rebalance.value.pending[k] == h;
      assert BackedBy(rows, c.rebalance.value.pending[k]);
    }
  }
}
