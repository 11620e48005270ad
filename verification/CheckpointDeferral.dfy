/**
 * A deferral postpones a BTC change: while it lasts the compared change is zero, and
 * what is compared when it ends is measured from the checkpoint it began at, less the
 * withdrawals explained meanwhile. The one way round this is stated exactly.
 */
module CheckpointDeferral {
  import opened Util
  import opened CheckpointTypes
  import opened Checkpoints
  import opened CheckpointWarnings
  import R = Rebalances
  import W = WithdrawalAccounting

  /** The level BTC is compared on. */
  function Comparison(c: Checkpoint): int {
    if c.withdrawals.Some? then c.withdrawals.value.comparisonTotalSats else RebalanceComparison(c)
  }

  function RebalanceComparison(c: Checkpoint): int {
    if c.rebalance.Some? then c.rebalance.value.comparisonTotalSats else c.totalSats
  }

  /** The BTC change a checkpoint compares, before any notice is decided on. */
  function BtcChange(b: Checkpoint, s: Sample): int
    requires Account(Some(b), s).Some?
  {
    var a := Account(Some(b), s).value;
    a.withdrawals.comparisonTotalSats - a.previousComparison
  }

  /** Without a withdrawal deferral both comparisons agree, and a rebalance deferral pins them to its anchor. */
  ghost predicate Levelled(c: Checkpoint) {
    && c.withdrawals.Some?
    && (!WithdrawalDeferred(c.withdrawals) ==> Comparison(c) == RebalanceComparison(c))
    && (RebalanceDeferred(c.rebalance) ==>
          RebalanceComparison(c) == c.rebalance.value.attributionDeferred.value.anchorComparisonTotalSats)
  }

  /**
   * A withdrawal deferral that ends (its sends failed) while a rebalance deferral is on:
   * the comparison jumps from the level the first froze to the anchor of the second.
   */
  ghost predicate HandedBack(b: Checkpoint, r: Option<Rebalance>, w: Withdrawals) {
    WithdrawalDeferred(b.withdrawals) && w.deferred.None? && RebalanceDeferred(r)
  }

  // ---- one sample ----

  lemma RebalanceLevel(b: Option<Checkpoint>, s: Sample)
    requires AccountRebalance(b, s).Ok?
    ensures var r := AccountRebalance(b, s).value;
            RebalanceDeferred(r) ==>
              && r.value.comparisonTotalSats == r.value.attributionDeferred.value.anchorComparisonTotalSats
              && b.Some?
              && r.value.comparisonTotalSats ==
                 (if R.PriorDeferral(b).Some? then R.PriorDeferral(b).value.anchorComparisonTotalSats
                  else RebalanceComparison(b.value))
  {
    var r := AccountRebalance(b, s).value;
    if r.Some? {
      var rows := if s.transfers.Some? then s.transfers.value else [];
      var overlap := R.AccountDeferredRebalances(b, s.totalSats, rows, s.startedAt);
      if overlap.None? {
        assert R.Accounted(b, s.totalSats, s.arkadeSats, rows).Ok?;
      }
    }
  }

  lemma NoRebalanceNoCorrection(b: Option<Checkpoint>, s: Sample)
    requires Account(b, s).Some? && AccountRebalance(b, s) == Util.Ok(None)
    ensures Account(b, s).value.withdrawals.deferred.None? ==>
              Account(b, s).value.withdrawals.comparisonTotalSats == s.totalSats
  {
    hide R.AccountSample, W.Tracked, W.Live, W.Basis, W.EvidenceComplete, W.SendsProved, W.SumActual, W.SumDebits, W.Rebase;
    var tracked := W.Tracked(b, s.withdrawals).value;
    var g := W.Gather(b, s.arkadeSats, None, [], tracked);
    assert W.MissingReserved([], g.reserved.ids).None?;
    assert g.reserved.ids == [];
  }

  lemma {:induction false} NothingExplained(pending: seq<Withdrawal>)
    ensures W.ExplainedRows(false, pending) == []
  {
    if pending != [] { NothingExplained(pending[..|pending| - 1]); }
  }

  /** How the withdrawal accounting levels the comparison of one sample. */
  lemma WithdrawalLevel(b: Option<Checkpoint>, s: Sample)
    requires Account(b, s).Some?
    ensures var a := Account(b, s).value;
            && a.previousComparison == W.PriorComparison(b, s.totalSats) - a.explainedDebit
            && (if a.withdrawals.deferred.Some? then a.withdrawals.comparisonTotalSats == a.previousComparison
                else a.withdrawals.comparisonTotalSats ==
                     if a.rebalance.Some? then a.rebalance.value.comparisonTotalSats else s.totalSats)
            && (RebalanceDeferred(a.rebalance) ==>
                  a.explainedDebit == 0 && a.rebalance == AccountRebalance(b, s).value)
  {
    hide R.AccountSample, R.AccountDeferredRebalances, W.Tracked, W.ReserveAll, W.Basis, W.Live, W.EvidenceComplete, W.SendsProved,
         W.Correction, W.Rebase, W.SumActual, W.SumDebits;
    var r := AccountRebalance(b, s).value;
    if r.None? {
      NoRebalanceNoCorrection(b, s);
    }
    if RebalanceDeferred(r) {
      NothingExplained(W.Tracked(b, s.withdrawals).value.pending);
    }
  }

  /** The compared BTC change of a sample, in each of the three situations. */
  lemma ChangeOf(b: Checkpoint, s: Sample)
    requires Levelled(b) && Account(Some(b), s).Some?
    ensures var a := Account(Some(b), s).value;
            BtcChange(b, s) ==
              if a.withdrawals.deferred.Some? then 0
              else if !RebalanceDeferred(a.rebalance) then
                a.withdrawals.comparisonTotalSats - Comparison(b) + a.explainedDebit
              else if HandedBack(b, a.rebalance, a.withdrawals) then
                a.rebalance.value.attributionDeferred.value.anchorComparisonTotalSats - Comparison(b)
              else 0
  {
    WithdrawalLevel(Some(b), s);
    RebalanceLevel(Some(b), s);
  }

  lemma LevelledStep(b: Option<Checkpoint>, s: Sample, id: nat)
    requires Record(b, s, id).Some?
    ensures Levelled(Record(b, s, id).value)
  {
    WithdrawalLevel(b, s);
    RebalanceLevel(b, s);
  }

  // ---- runs ----

  lemma {:induction false} BaselineLevelled(inputs: seq<Input>)
    ensures var b := Baseline(Replay(inputs)); b.Some? ==> Levelled(b.value)
  {
    if inputs != [] {
      var n := |inputs| - 1;
      var earlier := Replay(inputs[..n]);
      BaselineLevelled(inputs[..n]);
      BaselineAppend(earlier, StepEntry(Baseline(earlier), inputs[n]));
      if inputs[n].Read? && Record(Baseline(earlier), inputs[n].sample, inputs[n].id).Some? {
        LevelledStep(Baseline(earlier), inputs[n].sample, inputs[n].id);
      }
    }
  }

  /** The sample at position `j` is compared with a checkpoint and accounted for. */
  ghost predicate Compared(inputs: seq<Input>, j: nat) {
    j < |inputs| && inputs[j].Read?
    && Baseline(Replay(inputs[..j])).Some?
    && Account(Baseline(Replay(inputs[..j])), inputs[j].sample).Some?
  }

  ghost function ChangeAt(inputs: seq<Input>, j: nat): int
    requires Compared(inputs, j)
  {
    BtcChange(Baseline(Replay(inputs[..j])).value, inputs[j].sample)
  }

  ghost function AccountsAt(inputs: seq<Input>, j: nat): Accounts
    requires Compared(inputs, j)
  {
    Account(Baseline(Replay(inputs[..j])), inputs[j].sample).value
  }

  ghost predicate DeferredAt(inputs: seq<Input>, j: nat)
    requires Compared(inputs, j)
  {
    var a := AccountsAt(inputs, j);
    BtcDeferred(a.rebalance, Some(a.withdrawals))
  }

  ghost predicate HandedBackAt(inputs: seq<Input>, j: nat)
    requires Compared(inputs, j)
  {
    var a := AccountsAt(inputs, j);
    HandedBack(Baseline(Replay(inputs[..j])).value, a.rebalance, a.withdrawals)
  }

  /**
   * In every run, the BTC change compared at a deferred checkpoint is zero, except exactly
   * where a withdrawal deferral hands back to a rebalance deferral whose anchor is elsewhere.
   */
  lemma DeferredChangeIsZero(inputs: seq<Input>, j: nat)
    requires Compared(inputs, j) && DeferredAt(inputs, j)
    ensures ChangeAt(inputs, j) == 0 <==>
            !(HandedBackAt(inputs, j) &&
              AccountsAt(inputs, j).rebalance.value.attributionDeferred.value.anchorComparisonTotalSats
                != Comparison(Baseline(Replay(inputs[..j])).value))
  {
    hide Replay, Baseline, Account, BtcChange, Comparison, Levelled;
    BaselineLevelled(inputs[..j]);
    ChangeOf(Baseline(Replay(inputs[..j])).value, inputs[j].sample);
  }

  /** Of the two kinds of deferral, no checkpoint of the run ever records more than one and the same. */
  ghost predicate SingleKind(inputs: seq<Input>) {
    || (forall i :: 0 <= i < |inputs| && Replay(inputs)[i].Recorded? ==> !WithdrawalDeferred(Replay(inputs)[i].cp.withdrawals))
    || (forall i :: 0 <= i < |inputs| && Replay(inputs)[i].Recorded? ==> !RebalanceDeferred(Replay(inputs)[i].cp.rebalance))
  }

  /** In a run with one kind of deferral, no deferred checkpoint compares a BTC change at all. */
  lemma SingleKindIsZero(inputs: seq<Input>, j: nat)
    requires SingleKind(inputs) && Compared(inputs, j) && DeferredAt(inputs, j)
    ensures ChangeAt(inputs, j) == 0
  {
    if HandedBackAt(inputs, j) {
      BothKinds(inputs, j);
    }
    DeferredChangeIsZero(inputs, j);
  }

  /** A hand-back leaves a checkpoint with each kind behind. */
  lemma BothKinds(inputs: seq<Input>, j: nat)
    requires Compared(inputs, j) && HandedBackAt(inputs, j)
    ensures exists i :: 0 <= i < j && Replay(inputs)[i].Recorded? && WithdrawalDeferred(Replay(inputs)[i].cp.withdrawals)
    ensures Replay(inputs)[j].Recorded? && RebalanceDeferred(Replay(inputs)[j].cp.rebalance)
  {
    hide Account, Replay, Baseline, Drops, Changes, BackRows, Capped, OpenRows;
    var b := Baseline(Replay(inputs[..j])).value;
    ReplayPrefix(inputs, j);
    var i :| 0 <= i < j && Replay(inputs[..j])[i] == Recorded(b);
    assert Replay(inputs)[..j][i] == Recorded(b);
    ReplayAt(inputs, j);
  }

  /** The withdrawals explained by the samples recorded after position `i`, up to and including `j`. */
  ghost function ExplainedBetween(inputs: seq<Input>, i: nat, j: nat): int
    requires i <= j < |inputs|
  {
    if i == j then 0
    else ExplainedBetween(inputs, i, j - 1) + if Compared(inputs, j) then AccountsAt(inputs, j).explainedDebit else 0
  }

  /** Every sample recorded after `i` and before `j` was deferred, with no hand-back among them. */
  ghost predicate DeferredThroughout(inputs: seq<Input>, i: nat, j: nat) {
    forall t :: i < t < j && Compared(inputs, t) ==> DeferredAt(inputs, t) && !HandedBackAt(inputs, t)
  }

  lemma BaselineStep(inputs: seq<Input>, t: nat)
    requires t < |inputs| && Baseline(Replay(inputs[..t])).Some?
    ensures var b := Baseline(Replay(inputs[..t]));
            var next := Baseline(Replay(inputs[..t + 1]));
            if Compared(inputs, t) then
              next.Some? && Comparison(next.value) == AccountsAt(inputs, t).withdrawals.comparisonTotalSats
            else next == b
  {
    hide Account, Record, Replay, Baseline, Comparison;
    assert inputs[..t + 1][..t] == inputs[..t];
    ReplayStep(inputs[..t + 1]);
    var b := Baseline(Replay(inputs[..t]));
    BaselineAppend(Replay(inputs[..t]), StepEntry(b, inputs[t]));
    if inputs[t].Read? { RecordedComparison(b, inputs[t].sample, inputs[t].id); }
  }

  lemma RecordedComparison(b: Option<Checkpoint>, s: Sample, id: nat)
    ensures Record(b, s, id).Some? <==> Account(b, s).Some?
    ensures Account(b, s).Some? ==> Comparison(Record(b, s, id).value) == Account(b, s).value.withdrawals.comparisonTotalSats
  {
    hide Account, Drops, Changes, BackRows, Capped, OpenRows;
  }

  /** While a deferral lasts, the comparison only moves by the withdrawals it explains. */
  lemma {:induction false} FrozenWhileDeferred(inputs: seq<Input>, i: nat, j: nat)
    requires i < j <= |inputs| && DeferredThroughout(inputs, i, j)
    requires Baseline(Replay(inputs[..i + 1])).Some?
    ensures Baseline(Replay(inputs[..j])).Some?
    ensures Comparison(Baseline(Replay(inputs[..j])).value) ==
            Comparison(Baseline(Replay(inputs[..i + 1])).value) - ExplainedBetween(inputs, i, j - 1)
  {
    hide Account, Replay, Baseline, Comparison, Levelled, AccountsAt, DeferredAt, HandedBackAt, Compared;
    if i + 1 < j {
      FrozenWhileDeferred(inputs, i, j - 1);
      BaselineStep(inputs, j - 1);
      if Compared(inputs, j - 1) {
        BaselineLevelled(inputs[..j - 1]);
        DeferredKeepsLevel(inputs, j - 1);
      }
    }
  }

  lemma DeferredKeepsLevel(inputs: seq<Input>, t: nat)
    requires Compared(inputs, t) && DeferredAt(inputs, t) && !HandedBackAt(inputs, t)
    requires Levelled(Baseline(Replay(inputs[..t])).value)
    ensures AccountsAt(inputs, t).withdrawals.comparisonTotalSats ==
            Comparison(Baseline(Replay(inputs[..t])).value) - AccountsAt(inputs, t).explainedDebit
  {
    var b := Baseline(Replay(inputs[..t]));
    WithdrawalLevel(b, inputs[t].sample);
    ChangeOf(b.value, inputs[t].sample);
  }

  /**
   * Nothing is absorbed: the first free comparison after a deferral reports the new level
   * against the level recorded before it, less every withdrawal explained since.
   */
  lemma DeferralPostpones(inputs: seq<Input>, i: nat, j: nat)
    requires i < j && Compared(inputs, j) && !DeferredAt(inputs, j)
    requires Baseline(Replay(inputs[..i + 1])).Some? && DeferredThroughout(inputs, i, j)
    ensures ChangeAt(inputs, j) ==
            AccountsAt(inputs, j).withdrawals.comparisonTotalSats
            - (Comparison(Baseline(Replay(inputs[..i + 1])).value) - ExplainedBetween(inputs, i, j))
  {
    hide Account, Replay, Baseline, Comparison, Levelled, AccountsAt, DeferredAt, HandedBackAt, ChangeAt;
    FrozenWhileDeferred(inputs, i, j);
    BaselineLevelled(inputs[..j]);
    FreeChange(inputs, j);
  }

  lemma FreeChange(inputs: seq<Input>, j: nat)
    requires Compared(inputs, j) && !DeferredAt(inputs, j) && Levelled(Baseline(Replay(inputs[..j])).value)
    ensures ChangeAt(inputs, j) ==
            AccountsAt(inputs, j).withdrawals.comparisonTotalSats
            - Comparison(Baseline(Replay(inputs[..j])).value) + AccountsAt(inputs, j).explainedDebit
  {
    ChangeOf(Baseline(Replay(inputs[..j])).value, inputs[j].sample);
  }

  // ---- the way round it, on one input ----

  function Quiet(startedAt: nat, arkade: nat, total: nat, transfers: seq<Transfer>, withdrawals: seq<Withdrawal>): Sample {
    Sample(startedAt, arkade, [], total, Some(transfers), withdrawals, [])
  }

  /** A withdrawal of 100 whose outcome stays open, and later fails. */
  function Send(state: WithdrawalState): Withdrawal {
    Withdrawal(7, 100, None, None, state)
  }

  /** A rebalance charged while that outcome was open. */
  function Move(state: TransferState): Transfer {
    Transfer(9, Some(25), 26, 50, 0, None, state, None, [])
  }

  const S1: Sample := Quiet(10, 1000, 1000, [], [])
  const S2: Sample := Quiet(20, 900, 900, [], [Send(WithdrawalState.Uncertain)])
  const S3: Sample := Quiet(30, 900, 950, [Move(TransferState.Pending)], [Send(FailedWithdrawal)])
  const S4: Sample := Quiet(40, 900, 900, [Move(Failed)], [Send(FailedWithdrawal)])
  const S5: Sample := Quiet(50, 900, 900, [Move(Failed)], [Send(FailedWithdrawal)])

  function Plain(id: nat, startedAt: nat, arkade: nat, total: nat, previousId: Option<nat>, r: Rebalance, w: Withdrawals): Checkpoint {
    Checkpoint(id, startedAt, arkade, [], total, previousId, [], [], [], Some(r), Some(w))
  }

  const FIRST: Checkpoint :=
    Plain(1, 10, 1000, 1000, None,
          Rebalance(true, 1000, 0, 0, {}, {}, [], None, {}),
          Withdrawals(1000, {}, 0, 0, [], map[], [], None, {}, []))

  const SENDING: Checkpoint :=
    Plain(2, 20, 900, 900, Some(1),
          Rebalance(true, 900, 0, 0, {}, {}, [], None, {}),
          Withdrawals(1000, {}, 100, 0, [], map[], [Send(WithdrawalState.Uncertain)], Some(WithdrawalDeferral(1, {}, [])), {}, []))

  const HANDED: Checkpoint :=
    Plain(3, 30, 900, 950, Some(2),
          Rebalance(true, 900, 0, 0, {}, {9}, [Held(9, 25, false, 0, 0)],
                    Some(RebalanceDeferral(2, 900, [9], None, {}, [])), {}),
          Withdrawals(900, {7}, 0, 0, [], map[], [], None, {}, []))

  const SETTLING: Checkpoint :=
    Plain(4, 40, 900, 900, Some(3),
          Rebalance(true, 900, 0, 0, {}, {9}, [], Some(RebalanceDeferral(2, 900, [9], None, {}, [])), {}),
          Withdrawals(900, {7}, 0, 0, [], map[], [], None, {}, []))

  const SETTLED: Checkpoint :=
    Plain(5, 50, 900, 900, Some(4),
          Rebalance(true, 900, 0, 0, {}, {9}, [], None, {}),
          Withdrawals(900, {7}, 0, 0, [], map[], [], None, {}, []))

  lemma FirstRecorded()
    ensures Record(None, S1, 1) == Some(FIRST)
  {
    assert R.HeldIds([]) == [];
    assert R.FirstMissing([], R.HeldIds(R.PriorPending(None))).None?;
    var a := R.Attributed(None, 1000, 1000, []);
    assert a == R.Attribution(0, 0, 0, []);
    assert IdsOf([]) == {};
    var r := AccountRebalance(None, S1);
    assert r == Util.Ok(Some(FIRST.rebalance.value));
    var tracked := W.Tracked(None, []);
    assert tracked == Util.Ok(W.Tracking({}, []));
    var g := W.Gather(None, 1000, r.value, [], tracked.value);
    assert g == W.Gathered(W.Tracking({}, []), [], 0, W.Reserved([], 0), map[]);
    assert {} + W.DroppedIds(false, []) == {};
    assert !W.Proved(g, r.value, [], []);
    assert W.ExplainedRows(false, []) == [];
    var w := W.Accounted(None, 1000, 1000, r.value, [], [], []);
    assert w.Ok? && w.value.rebalanceCorrectionSats == 0;
    assert w.value.state == FIRST.withdrawals.value;
    assert w == Util.Ok(W.Accounting(FIRST.withdrawals.value, 1000, 0, 0));
  }

  /** With no asset, no drop and nothing followed, a checkpoint is its two accounts. */
  lemma PlainAssembled(b: Checkpoint, s: Sample, id: nat, a: Accounts, r: Rebalance, w: Withdrawals)
    requires s.assets == [] && b.assets == []
    requires a.rebalance == Some(r) && a.withdrawals == w
    requires BtcDeferred(Some(r), Some(w)) || w.comparisonTotalSats >= a.previousComparison
    requires b.drops == [] && b.unrecovered == [] && RebalanceHeldRows(b) == [] && WithdrawalHeldRows(b) == []
    requires HeldNow(Some(b), Some(r), Some(w)) == {}
    requires RebalanceDeferred(Some(r)) ==>
               r.attributionDeferred.value.heldBtcWarnings == [] && r.attributionDeferred.value.heldBtcDecreaseIds == {}
    requires WithdrawalDeferred(Some(w)) ==>
               w.deferred.value.heldBtcWarnings == [] && w.deferred.value.heldBtcDecreaseIds == {}
    ensures Assemble(Some(b), s, a, id) == Plain(id, s.startedAt, s.arkadeSats, s.totalSats, Some(b.id), r, w)
  {
    assert b.unrecovered + RebalanceHeldRows(b) + WithdrawalHeldRows(b) + FollowedFrom(b.id, b.drops) == [];
    assert Carried(b) == [];
    assert Followings(Some(b), a.explainedDebit) == [];
    assert HeldRows([], {}) == [];
    assert WithRebalanceHeld(Some(r), {}, []) == Some(r);
    assert WithWithdrawalHeld(Some(w), {}, []) == Some(w);
    var changes := Changes(b, a.previousComparison, w.comparisonTotalSats, s.assets);
    assert AssetIds([]) == [];
    assert changes == [Change(Btc, a.previousComparison, w.comparisonTotalSats)];
    assert changes[..0] == [];
    assert Drops(changes, BtcDeferred(Some(r), Some(w)), UncertainAllowance(b.rebalance)) == [];
    assert Capped([], ProtectedIds(Some(r), Some(w))) == [];
  }

  lemma SendingRecorded()
    ensures Record(Some(FIRST), S2, 2) == Some(SENDING)
  {
    var b := Some(FIRST);
    assert R.HeldIds([]) == [];
    assert R.FirstMissing([], R.HeldIds(R.PriorPending(b))).None?;
    assert R.Attributed(b, 900, 900, []) == R.Attribution(0, 100, 100, []);
    assert IdsOf([]) == {};
    var r := AccountRebalance(b, S2);
    assert r == Util.Ok(Some(SENDING.rebalance.value));
    var row := Send(WithdrawalState.Uncertain);
    assert [row][..0] == [];
    var tracked := W.Tracked(b, [row]);
    assert W.AdmitAll(true, W.Tracking({}, []), [row][..0]) == W.Tracking({}, []);
    assert [] + [row] == [row];
    assert tracked == Util.Ok(W.Tracking({}, [row]));
    var g := W.Gather(b, 900, r.value, [], tracked.value);
    assert g == W.Gathered(W.Tracking({}, [row]), [row], 100, W.Reserved([], 0), map[]);
    assert row in g.live;
    assert !W.Proved(g, r.value, [], []);
    assert {} + W.DroppedIds(false, [row]) == {};
    assert W.ExplainedRows(false, [row]) == [];
    assert W.Kept(false, [row]) == [row];
    assert DueBtcRows(FIRST) == [];
    var w := W.Accounted(b, 900, 900, r.value, [], [row], []);
    assert w.Ok? && w.value.rebalanceCorrectionSats == 0;
    assert w.value.state.deferred == SENDING.withdrawals.value.deferred;
    assert w.value.state == SENDING.withdrawals.value;
    PlainAssembled(FIRST, S2, 2, Account(b, S2).value, SENDING.rebalance.value, SENDING.withdrawals.value);
  }

  lemma HandedRebalance()
    ensures AccountRebalance(Some(SENDING), S3) == Util.Ok(Some(HANDED.rebalance.value))
  {
    var b := Some(SENDING);
    var t := Move(TransferState.Pending);
    var held := Held(9, 25, false, 0, 0);
    assert R.HeldIds([]) == [];
    assert R.FirstMissing([t], R.HeldIds(R.PriorPending(b))).None?;
    assert R.FindMarker(b.value.rebalance, [t]).None?;
    assert [t][..0] == [] && [] + [held] == [held];
    assert R.AdmitAll(b, R.Start(b, 950, 900), [t]) == R.Attribution(0, 0, 0, [held]);
    assert R.Attributed(b, 950, 900, [t]) == R.Attribution(0, 0, 0, [held]);
    assert Lookup([t], 9) == Some(t);
    assert [held][..0] == [];
    assert R.Remaining([t], [held]) == [held];
    assert R.HeldIds([held]) == [9];
    assert IdsOf([t]) == {9};
    assert DueBtcRows(SENDING) == [];
  }

  lemma HandedRecorded()
    ensures Record(Some(SENDING), S3, 3) == Some(HANDED)
  {
    hide R.Accounted, R.AccountDeferredRebalances;
    HandedRebalance();
    var b := Some(SENDING);
    var t := Move(TransferState.Pending);
    var r := AccountRebalance(b, S3);
    var row := Send(FailedWithdrawal);
    var earlier := Send(WithdrawalState.Uncertain);
    assert [row][..0] == [] && [earlier][..0] == [] && [] + [row] == [row];
    assert W.Refresh([row], [earlier]) == Util.Ok([row]);
    assert row in [row];
    assert W.AdmitAll(true, W.Tracking({}, [row]), [row]) == W.Tracking({}, [row]);
    var tracked := W.Tracked(b, [row]);
    assert tracked == Util.Ok(W.Tracking({}, [row]));
    assert W.Live([row]) == [];
    var g := W.Gather(b, 900, r.value, [t], tracked.value);
    assert g == W.Gathered(W.Tracking({}, [row]), [], 100, W.Reserved([], 0), map[]);
    assert !W.Proved(g, r.value, [t], []);
    assert {} + W.DroppedIds(false, [row]) == {7};
    assert W.ExplainedRows(false, [row]) == [];
    assert W.Kept(false, [row]) == [];
    var w := W.Accounted(b, 950, 900, r.value, [t], [row], []);
    assert w.Ok? && w.value.rebalanceCorrectionSats == 0;
    assert w.value.state == HANDED.withdrawals.value;
    PlainAssembled(SENDING, S3, 3, Account(b, S3).value, HANDED.rebalance.value, HANDED.withdrawals.value);
  }

  /** A failed withdrawal already seen leaves the withdrawal accounting as it was. */
  lemma NothingWithdrawn(b: Checkpoint, s: Sample, r: Rebalance, t: Transfer)
    requires b.withdrawals == HANDED.withdrawals && s.withdrawals == [Send(FailedWithdrawal)] && s.history == []
    requires AccountRebalance(Some(b), s) == Util.Ok(Some(r)) && r.comparisonTotalSats == 900
    requires s.transfers == Some([t])
    ensures Account(Some(b), s) == Some(Accounts(Some(r), HANDED.withdrawals.value, 900, 0))
  {
    hide AccountRebalance, W.EvidenceComplete, W.SendsProved;
    var row := Send(FailedWithdrawal);
    assert [row][..0] == [];
    assert W.AdmitAll(true, W.Tracking({7}, []), [row]) == W.Tracking({7}, []);
    var tracked := W.Tracked(Some(b), [row]);
    assert tracked == Util.Ok(W.Tracking({7}, []));
    assert W.Live([]) == [];
    var g := W.Gather(Some(b), s.arkadeSats, Some(r), [t], tracked.value);
    assert g == W.Gathered(W.Tracking({7}, []), [], 0, W.Reserved([], 0), map[]);
    assert {7} + W.DroppedIds(false, []) == {7};
    assert W.ExplainedRows(false, []) == [] && W.Kept(false, []) == [];
    var w := W.Accounted(Some(b), s.totalSats, s.arkadeSats, Some(r), [t], [row], []);
    assert w.Ok? && w.value.rebalanceCorrectionSats == 0;
    assert w.value.state == HANDED.withdrawals.value;
  }

  lemma SettlingRecorded()
    ensures Record(Some(HANDED), S4, 4) == Some(SETTLING)
  {
    var b := Some(HANDED);
    var t := Move(Failed);
    var held := Held(9, 25, false, 0, 0);
    assert R.HeldIds([held]) == [9];
    assert Lookup([t], 9) == Some(t);
    assert R.FirstMissing([t], [9]).None?;
    assert R.FindMarker(b.value.rebalance, [t]).None?;
    assert [t][..0] == [] && [held][..0] == [];
    assert R.AdmitAll(b, R.Start(b, 900, 900), [t]) == R.Attribution(0, 50, 0, [held]);
    assert R.Attributed(b, 900, 900, [t]) == R.Attribution(0, 50, 0, [held]);
    assert R.Remaining([t], [held]) == [];
    assert R.AppendNew([9], R.HeldIds([])) == [9];
    assert IdsOf([t]) == {9};
    var r := AccountRebalance(b, S4);
    assert r == Util.Ok(Some(SETTLING.rebalance.value));
    NothingWithdrawn(HANDED, S4, SETTLING.rebalance.value, t);
    PlainAssembled(HANDED, S4, 4, Account(b, S4).value, SETTLING.rebalance.value, SETTLING.withdrawals.value);
  }

  lemma SettledRecorded()
    ensures Record(Some(SETTLING), S5, 5) == Some(SETTLED)
  {
    var b := Some(SETTLING);
    var t := Move(Failed);
    assert R.HeldIds([]) == [];
    assert R.FirstMissing([t], []).None?;
    assert R.FindMarker(b.value.rebalance, [t]).None?;
    assert [t][..0] == [];
    assert R.AdmitAll(b, R.Start(b, 900, 900), [t]) == R.Attribution(0, 0, 0, []);
    assert R.Attributed(b, 900, 900, [t]) == R.Attribution(0, 0, 0, []);
    assert R.Remaining([t], []) == [];
    assert IdsOf([t]) == {9};
    var r := AccountRebalance(b, S5);
    assert r == Util.Ok(Some(SETTLED.rebalance.value));
    NothingWithdrawn(SETTLING, S5, SETTLED.rebalance.value, t);
    PlainAssembled(SETTLING, S5, 5, Account(b, S5).value, SETTLED.rebalance.value, SETTLED.withdrawals.value);
  }

  lemma ReplayRecorded(inputs: seq<Input>, entries: seq<Entry>, b: Option<Checkpoint>, id: nat, s: Sample, c: Checkpoint)
    requires Replay(inputs) == entries && Baseline(entries) == b && Record(b, s, id) == Some(c)
    ensures Replay(inputs + [Read(id, s)]) == entries + [Recorded(c)]
    ensures Baseline(entries + [Recorded(c)]) == Some(c)
  {
    assert (inputs + [Read(id, s)])[..|inputs|] == inputs;
  }

  /**
   * A run that ends with both deferrals over, every withdrawal failed, no transfer moved and
   * 100 sats gone since its first checkpoint, and in which no checkpoint recorded a decrease.
   */
  lemma HandBackAbsorbsALoss()
    ensures Replay([] + [Read(1, S1)] + [Read(2, S2)] + [Read(3, S3)] + [Read(4, S4)] + [Read(5, S5)]) ==
            [] + [Recorded(FIRST)] + [Recorded(SENDING)] + [Recorded(HANDED)] + [Recorded(SETTLING)] + [Recorded(SETTLED)]
    ensures HandedBack(SENDING, HANDED.rebalance, HANDED.withdrawals.value)
    ensures !Deferred(FIRST) && !Deferred(SETTLED) && SETTLED.totalSats == FIRST.totalSats - 100
    ensures forall c :: c in {FIRST, SENDING, HANDED, SETTLING, SETTLED} ==> c.drops == [] && c.unrecovered == []
  {
    hide Record, Replay, Baseline;
    FirstRecorded();
    SendingRecorded();
    HandedRecorded();
    SettlingRecorded();
    SettledRecorded();
    var i1 := [] + [Read(1, S1)];
    var e1 := [] + [Recorded(FIRST)];
    ReplayNothing();
    ReplayRecorded([], [], None, 1, S1, FIRST);
    ReplayRecorded(i1, e1, Some(FIRST), 2, S2, SENDING);
    ReplayRecorded(i1 + [Read(2, S2)], e1 + [Recorded(SENDING)], Some(SENDING), 3, S3, HANDED);
    var i3 := i1 + [Read(2, S2)] + [Read(3, S3)];
    var e3 := e1 + [Recorded(SENDING)] + [Recorded(HANDED)];
    ReplayRecorded(i3, e3, Some(HANDED), 4, S4, SETTLING);
    ReplayRecorded(i3 + [Read(4, S4)], e3 + [Recorded(SETTLING)], Some(SETTLING), 5, S5, SETTLED);
  }

  lemma ReplayNothing()
    ensures Replay([]) == [] && Baseline([]) == None
  {
  }
}
