/**
 * Over every run: a recorded decrease is warned at most once, it is recovered only
 * after it was warned and at most once, and no decrease that falls due is lost,
 * whichever deferrals start, end or hand over to each other meanwhile.
 */
module CheckpointWarnings {
  import opened Util
  import opened CheckpointTypes
  import opened Checkpoints
  import R = Rebalances
  import W = WithdrawalAccounting

  /** What identifies a recorded decrease across checkpoints. */
  datatype Key = Key(checkpointId: nat, asset: Asset)

  function KeyOf(row: Followed): Key {
    Key(row.checkpointId, row.asset)
  }

  function KeysOf(rows: seq<Followed>): (r: set<Key>)
    ensures forall row :: row in rows ==> KeyOf(row) in r
  {
    set row | row in rows :: KeyOf(row)
  }

  predicate Deferred(c: Checkpoint) {
    BtcDeferred(c.rebalance, c.withdrawals)
  }

  function HeldIdsOf(c: Checkpoint): set<nat> {
    RebalanceHeldIds(c.rebalance) + WithdrawalHeldIds(c.withdrawals)
  }

  ghost predicate HasBtcDrop(c: Checkpoint) {
    exists d :: d in c.drops && d.asset == Btc
  }

  ghost function WarnedKeys(entries: seq<Entry>): set<Key> {
    if entries == [] then {}
    else
      var last := entries[|entries| - 1];
      WarnedKeys(entries[..|entries| - 1]) + if last.Recorded? then KeysOf(WarnedRows(last.cp)) else {}
  }

  ghost function RecoveredKeys(entries: seq<Entry>): set<Key> {
    if entries == [] then {}
    else
      var last := entries[|entries| - 1];
      RecoveredKeys(entries[..|entries| - 1]) + if last.Recorded? then KeysOf(RecoveredRows(last.cp)) else {}
  }

  ghost predicate DistinctKeys(rows: seq<Followed>) {
    forall i, j :: 0 <= i < j < |rows| ==> KeyOf(rows[i]) != KeyOf(rows[j])
  }

  // ---- what each accounting does to the rows being held ----

  lemma RebalanceHolds(b: Option<Checkpoint>, s: Sample)
    requires AccountRebalance(b, s).Ok?
    ensures var r := AccountRebalance(b, s).value;
            var delayed := if r.Some? then r.value.delayedBtcWarningIds else {};
            if R.PriorDeferral(b).Some?
            then if RebalanceDeferred(r)
                 then RebalanceHeldIds(r) == RebalanceHeldIds(b.value.rebalance) && delayed == {}
                 else delayed == RebalanceHeldIds(b.value.rebalance)
            else delayed == {} && (RebalanceDeferred(r) ==> b.Some? && RebalanceHeldIds(r) == DueBtcIds(b.value))
  {
    var r := AccountRebalance(b, s).value;
    if r.Some? {
      var rows := if s.transfers.Some? then s.transfers.value else [];
      var overlap := R.AccountDeferredRebalances(b, s.totalSats, rows, s.startedAt);
      if overlap.None? {
        assert R.Accounted(b, s.totalSats, s.arkadeSats, rows).Ok?;
      }
    }
  }

  lemma WithdrawalHolds(b: Option<Checkpoint>, s: Sample)
    requires Account(b, s).Some?
    ensures var w := Account(b, s).value.withdrawals;
            if b.Some? && WithdrawalDeferred(b.value.withdrawals)
            then if w.deferred.Some?
                 then WithdrawalHeldIds(Some(w)) == WithdrawalHeldIds(b.value.withdrawals) && w.delayedBtcWarningIds == {}
                 else w.delayedBtcWarningIds == WithdrawalHeldIds(b.value.withdrawals)
            else w.delayedBtcWarningIds == {}
                 && (w.deferred.Some? ==> WithdrawalHeldIds(Some(w)) == if b.Some? then DueBtcIds(b.value) else {})
  {
  }

  ghost function DueOf(b: Option<Checkpoint>): set<nat> {
    if b.Some? then DueBtcIds(b.value) else {}
  }

  ghost function HeldOf(b: Option<Checkpoint>): set<nat> {
    if b.Some? then HeldIdsOf(b.value) else {}
  }

  /** A deferral leaves no BTC decrease behind it. */
  ghost predicate QuietWhileDeferred(b: Option<Checkpoint>) {
    b.Some? && Deferred(b.value) ==> DueBtcIds(b.value) == {}
  }

  /** How the two accountings of one sample may move what is held. */
  ghost predicate Moved(b: Option<Checkpoint>, r: Option<Rebalance>, w: Option<Withdrawals>) {
    var before := if b.Some? then b.value.rebalance else None;
    var beforeW := if b.Some? then b.value.withdrawals else None;
    && DelayedIds(r, w) == (if RebalanceDeferred(r) then {} else RebalanceHeldIds(before))
                           + (if WithdrawalDeferred(w) then {} else WithdrawalHeldIds(beforeW))
    && RebalanceHeldIds(r) == (if !RebalanceDeferred(r) then {}
                               else if RebalanceDeferred(before) then RebalanceHeldIds(before) else DueOf(b))
    && WithdrawalHeldIds(w) == (if !WithdrawalDeferred(w) then {}
                                else if WithdrawalDeferred(beforeW) then WithdrawalHeldIds(beforeW) else DueOf(b))
    && (RebalanceDeferred(r) ==> r.value.delayedBtcWarningIds == {})
    && (WithdrawalDeferred(w) ==> w.value.delayedBtcWarningIds == {})
  }

  lemma AccountsMoved(b: Option<Checkpoint>, s: Sample)
    requires Account(b, s).Some?
    ensures Moved(b, Account(b, s).value.rebalance, Some(Account(b, s).value.withdrawals))
  {
    hide R.AccountSample, W.Accounted, R.AccountDeferredRebalances;
    RebalanceHolds(b, s);
    WithdrawalHolds(b, s);
    var a := Account(b, s).value;
    var r := AccountRebalance(b, s).value;
    assert RebalanceDeferred(a.rebalance) == RebalanceDeferred(r);
    assert RebalanceHeldIds(a.rebalance) == RebalanceHeldIds(r);
  }

  /** What is held after a checkpoint, once both deferrals carry the same list. */
  lemma HoldsUpdated(b: Option<Checkpoint>, r0: Option<Rebalance>, w0: Option<Withdrawals>, rows: seq<Followed>)
    requires QuietWhileDeferred(b) && Moved(b, r0, w0)
    ensures var ids := HeldNow(b, r0, w0);
            var r, w := WithRebalanceHeld(r0, ids, rows), WithWithdrawalHeld(w0, ids, rows);
            var held := RebalanceHeldIds(r) + WithdrawalHeldIds(w);
            && BtcDeferred(r, w) == BtcDeferred(r0, w0)
            && DelayedIds(r, w) == DelayedIds(r0, w0) <= HeldOf(b)
            && (BtcDeferred(r, w) ==>
                  held == ids == HeldOf(b) + (if b.Some? && !Deferred(b.value) then DueOf(b) else {})
                  && ProtectedIds(r, w) >= held)
            && (!BtcDeferred(r, w) ==> held == {} && DelayedIds(r, w) == ProtectedIds(r, w) == HeldOf(b))
  {
  }

  // ---- the rows carried from one checkpoint to the next ----

  lemma KeysOfCons(row: Followed, rest: seq<Followed>)
    ensures KeysOf([row] + rest) == {KeyOf(row)} + KeysOf(rest)
    ensures DistinctKeys([row] + rest) <==> DistinctKeys(rest) && KeyOf(row) !in KeysOf(rest)
  {
    var all := [row] + rest;
    assert all[0] == row;
    assert forall i :: 0 <= i < |rest| ==> rest[i] == all[i + 1];
    if DistinctKeys(all) {
      forall i | 0 <= i < |rest| ensures KeyOf(rest[i]) != KeyOf(row) {
        assert rest[i] == all[i + 1];
      }
    }
    if DistinctKeys(rest) && KeyOf(row) !in KeysOf(rest) {
      forall i, j | 0 <= i < j < |all| ensures KeyOf(all[i]) != KeyOf(all[j]) {
        assert all[j] == rest[j - 1] && rest[j - 1] in rest;
        if i > 0 { assert all[i] == rest[i - 1]; }
      }
    }
  }

  lemma {:induction false} UpsertKeys(rows: seq<Followed>, row: Followed)
    requires DistinctKeys(rows)
    ensures DistinctKeys(Upsert(rows, row))
    ensures KeysOf(Upsert(rows, row)) == KeysOf(rows) + {KeyOf(row)}
  {
    if rows == [] {
      KeysOfCons(row, []);
      assert [row] + [] == [row];
    } else {
      assert rows == [rows[0]] + rows[1..];
      KeysOfCons(rows[0], rows[1..]);
      if SameKey(rows[0], row) {
        KeysOfCons(row, rows[1..]);
      } else {
        UpsertKeys(rows[1..], row);
        KeysOfCons(rows[0], Upsert(rows[1..], row));
      }
    }
  }

  /** The row filed takes the place of the first one with its key, at `i`, or joins last when there is none. */
  lemma {:induction false} UpsertFiles(rows: seq<Followed>, row: Followed, i: nat)
    requires i <= |rows| && (i < |rows| ==> SameKey(rows[i], row))
    requires forall j :: 0 <= j < i ==> !SameKey(rows[j], row)
    ensures Upsert(rows, row) == if i < |rows| then rows[i := row] else rows + [row]
  {
    if i > 0 {
      UpsertFiles(rows[1..], row, i - 1);
    }
  }

  lemma {:induction false} UpsertAllKeys(rows: seq<Followed>, more: seq<Followed>)
    requires DistinctKeys(rows)
    ensures DistinctKeys(UpsertAll(rows, more))
    ensures KeysOf(UpsertAll(rows, more)) == KeysOf(rows) + KeysOf(more)
  {
    if more != [] {
      var n := |more| - 1;
      assert more == more[..n] + [more[n]];
      UpsertAllKeys(rows, more[..n]);
      UpsertKeys(UpsertAll(rows, more[..n]), more[n]);
    }
  }

  /** Every key the next sample follows: still open, held, or newly recorded at `b`. */
  lemma CarriedKeys(b: Checkpoint)
    ensures DistinctKeys(Carried(b))
    ensures KeysOf(Carried(b)) ==
            KeysOf(b.unrecovered) + KeysOf(RebalanceHeldRows(b)) + KeysOf(WithdrawalHeldRows(b))
            + KeysOf(FollowedFrom(b.id, b.drops))
  {
    var all := b.unrecovered + RebalanceHeldRows(b) + WithdrawalHeldRows(b) + FollowedFrom(b.id, b.drops);
    UpsertAllKeys([], all);
    assert KeysOf(all) == KeysOf(b.unrecovered) + KeysOf(RebalanceHeldRows(b)) + KeysOf(WithdrawalHeldRows(b))
                          + KeysOf(FollowedFrom(b.id, b.drops));
  }

  lemma FollowingsKeys(b: Checkpoint, explainedDebit: nat)
    ensures DistinctKeys(Followings(Some(b), explainedDebit))
    ensures KeysOf(Followings(Some(b), explainedDebit)) == KeysOf(Carried(b))
  {
    CarriedKeys(b);
    var f := Followings(Some(b), explainedDebit);
    assert forall i :: 0 <= i < |f| ==> KeyOf(f[i]) == KeyOf(Carried(b)[i]);
    forall k | k in KeysOf(Carried(b)) ensures k in KeysOf(f) {
      var i :| 0 <= i < |Carried(b)| && KeyOf(Carried(b)[i]) == k;
      assert f[i] in f;
    }
  }

  // ---- one recorded checkpoint, row by row ----

  /** The sample of `c` shows this row's asset back where it was. */
  predicate Back(s: Sample, a: Accounts, row: Followed) {
    IsBack(row, a.withdrawals.comparisonTotalSats, s.assets,
           BtcDeferred(a.rebalance, Some(a.withdrawals)), UncertainAllowance(a.rebalance))
  }

  /** A row followed into `c` and open there, but left out of what `c` keeps. */
  ghost predicate CutAt(s: Sample, a: Accounts, c: Checkpoint, row: Followed) {
    !Back(s, a, row) && row !in c.unrecovered
  }

  lemma CappedCut(open: seq<Followed>, ids: set<nat>, row: Followed)
    requires row in open && row !in Capped(open, ids)
    ensures !IsProtected(row, ids)
    ensures |Capped(open, ids)| >= UNRECOVERED_LIMIT
  {
  }

  /**
   * The cap keeps every protected row, and of the others a newest run of them that fills the list
   * to the limit, or all of them; the list is longer than that only by protected rows.
   */
  lemma CappedKeeps(open: seq<Followed>, ids: set<nat>)
    ensures var held, others, r := ProtectedRows(open, ids), OtherRows(open, ids), Capped(open, ids);
            && |held| <= |r| <= |open| == |held| + |others|
            && r == held + others[|open| - |r|..]
            && |r| == if |open| <= UNRECOVERED_LIMIT then |open| else Max(UNRECOVERED_LIMIT, |held|)
  {
    SplitLengths(open, (row: Followed) => IsProtected(row, ids), (row: Followed) => !IsProtected(row, ids));
  }

  lemma {:induction false} SplitLengths<T(!new)>(s: seq<T>, p: T -> bool, q: T -> bool)
    requires forall x :: q(x) <==> !p(x)
    ensures |Filter(s, p)| + |Filter(s, q)| == |s|
  {
    if s != [] { SplitLengths(s[..|s| - 1], p, q); }
  }

  lemma {:induction false} DropsQuiet(changes: seq<Change>, btcDeferred: bool, uncertain: nat)
    ensures btcDeferred ==> forall d :: d in Drops(changes, btcDeferred, uncertain) ==> d.asset != Btc
  {
    if changes != [] {
      DropsQuiet(changes[..|changes| - 1], btcDeferred, uncertain);
    }
  }

  lemma RecordedRows(b: Option<Checkpoint>, s: Sample, id: nat)
    requires Record(b, s, id).Some?
    ensures var a := Account(b, s).value;
            var c := Record(b, s, id).value;
            var followed := Followings(b, a.explainedDebit);
            && c.id == id
            && c.previousId == (if b.Some? then Some(b.value.id) else None)
            && (Deferred(c) ==> DueBtcIds(c) == {})
            && (forall row :: row in c.unrecovered ==> row in followed && !Back(s, a, row))
            && (forall row :: row in c.recovered ==> row in followed && Back(s, a, row))
            && (forall row :: row in followed && CutAt(s, a, c, row) ==>
                  !IsProtected(row, ProtectedIds(c.rebalance, c.withdrawals)) && |c.unrecovered| >= UNRECOVERED_LIMIT)
            && (forall row :: row in RebalanceHeldRows(c) + WithdrawalHeldRows(c) ==>
                  row in followed && IsProtected(row, HeldNow(b, a.rebalance, Some(a.withdrawals))))
  {
    hide Account, Changes, Carried, Followings;
    var a := Account(b, s).value;
    var r0, w0 := a.rebalance, Some(a.withdrawals);
    var followed := Followings(b, a.explainedDebit);
    var held := HeldRows(followed, HeldNow(b, r0, w0));
    var c := Record(b, s, id).value;
    assert UncertainAllowance(c.rebalance) == UncertainAllowance(r0);
    if b.Some? {
      DropsQuiet(Changes(b.value, a.previousComparison, a.withdrawals.comparisonTotalSats, s.assets),
                 BtcDeferred(r0, w0), UncertainAllowance(b.value.rebalance));
    }
    var open := OpenRows(followed, a.withdrawals.comparisonTotalSats, s.assets, BtcDeferred(r0, w0), UncertainAllowance(r0));
    assert c.unrecovered == Capped(open, ProtectedIds(c.rebalance, c.withdrawals));
    forall row | row in followed && CutAt(s, a, c, row)
      ensures !IsProtected(row, ProtectedIds(c.rebalance, c.withdrawals)) && |c.unrecovered| >= UNRECOVERED_LIMIT
    {
      CappedCut(open, ProtectedIds(c.rebalance, c.withdrawals), row);
    }
  }

  // ---- the invariant of a run ----

  /** What the last complete checkpoint and the notices sent so far always satisfy together. */
  ghost predicate Inv(b: Option<Checkpoint>, warned: set<Key>, recovered: set<Key>) {
    && recovered <= warned
    && (b.None? ==> warned == {})
    && QuietWhileDeferred(b)
    && (b.Some? ==>
          && (forall k :: k in warned ==> k.checkpointId < b.value.id)
          && (forall id :: id in HeldIdsOf(b.value) ==>
                id < b.value.id && Key(id, Btc) !in warned && Key(id, Btc) in KeysOf(b.value.unrecovered))
          && (forall row :: row in b.value.unrecovered ==>
                && row.checkpointId < b.value.id
                && KeyOf(row) !in recovered
                && (KeyOf(row) in warned || IsProtected(row, HeldIdsOf(b.value))))
          && (forall row :: row in RebalanceHeldRows(b.value) + WithdrawalHeldRows(b.value) ==>
                IsProtected(row, HeldIdsOf(b.value))))
  }

  /** What a row followed from `b` is: this checkpoint's own, one already warned, or one being held. */
  lemma FollowedOrigin(b: Checkpoint, warned: set<Key>, recovered: set<Key>, explainedDebit: nat, row: Followed)
    requires Inv(Some(b), warned, recovered)
    requires row in Followings(Some(b), explainedDebit)
    ensures row.checkpointId <= b.id
    ensures row.checkpointId == b.id ==> row.asset == Btc ==> b.id in DueBtcIds(b)
    ensures row.checkpointId != b.id ==>
              KeyOf(row) !in recovered && (KeyOf(row) in warned || IsProtected(row, HeldIdsOf(b)))
  {
    FollowingsKeys(b, explainedDebit);
    CarriedKeys(b);
    var k := KeyOf(row);
    assert k in KeysOf(Carried(b));
    if k in KeysOf(FollowedFrom(b.id, b.drops)) {
      OwnDrop(b, k);
    }
    if k in KeysOf(b.unrecovered) {
      OpenRow(b, warned, recovered, k);
    }
    if k in KeysOf(RebalanceHeldRows(b)) + KeysOf(WithdrawalHeldRows(b)) {
      HeldRow(b, warned, recovered, k);
    }
  }

  lemma OwnDrop(b: Checkpoint, k: Key)
    requires k in KeysOf(FollowedFrom(b.id, b.drops))
    ensures k.checkpointId == b.id && (k.asset == Btc ==> b.id in DueBtcIds(b))
  {
    var x :| x in FollowedFrom(b.id, b.drops) && KeyOf(x) == k;
    var i :| 0 <= i < |b.drops| && FollowedFrom(b.id, b.drops)[i] == x;
    assert b.drops[i] in b.drops;
  }

  lemma OpenRow(b: Checkpoint, warned: set<Key>, recovered: set<Key>, k: Key)
    requires Inv(Some(b), warned, recovered) && k in KeysOf(b.unrecovered)
    ensures k.checkpointId < b.id && k !in recovered
    ensures k in warned || (k.asset == Btc && k.checkpointId in HeldIdsOf(b))
  {
    var x :| x in b.unrecovered && KeyOf(x) == k;
  }

  lemma HeldRow(b: Checkpoint, warned: set<Key>, recovered: set<Key>, k: Key)
    requires Inv(Some(b), warned, recovered)
    requires k in KeysOf(RebalanceHeldRows(b)) + KeysOf(WithdrawalHeldRows(b))
    ensures k.checkpointId < b.id && k !in recovered
    ensures k.asset == Btc && k.checkpointId in HeldIdsOf(b)
  {
    var x :| x in RebalanceHeldRows(b) + WithdrawalHeldRows(b) && KeyOf(x) == k;
    assert k == Key(x.checkpointId, Btc);
  }

  /** The notices and holds of `c` agree with what was due or held at the checkpoint before it. */
  lemma Holds(b: Option<Checkpoint>, s: Sample, id: nat)
    requires Record(b, s, id).Some? && QuietWhileDeferred(b)
    ensures var c := Record(b, s, id).value;
            && (Deferred(c) ==>
                  HeldIdsOf(c) == HeldNow(b, Account(b, s).value.rebalance, Some(Account(b, s).value.withdrawals))
                  && HeldIdsOf(c) == HeldOf(b) + (if b.Some? && !Deferred(b.value) then DueOf(b) else {})
                  && ProtectedIds(c.rebalance, c.withdrawals) >= HeldIdsOf(c))
            && (!Deferred(c) ==>
                  HeldIdsOf(c) == {}
                  && DelayedIds(c.rebalance, c.withdrawals) == ProtectedIds(c.rebalance, c.withdrawals) == HeldOf(b))
            && Deferred(c) == BtcDeferred(Account(b, s).value.rebalance, Some(Account(b, s).value.withdrawals))
  {
    AccountsMoved(b, s);
    var a := Account(b, s).value;
    var rows := HeldRows(Followings(b, a.explainedDebit), HeldNow(b, a.rebalance, Some(a.withdrawals)));
    HoldsUpdated(b, a.rebalance, Some(a.withdrawals), rows);
  }

  /** The warning of `c` names nothing warned before; its recovery names only what was warned, and once. */
  lemma NoticesStep(b: Checkpoint, s: Sample, id: nat, warned: set<Key>, recovered: set<Key>)
    requires Record(Some(b), s, id).Some? && Inv(Some(b), warned, recovered)
    ensures var c := Record(Some(b), s, id).value;
            && KeysOf(WarnedRows(c)) !! warned
            && KeysOf(RecoveredRows(c)) <= warned
            && KeysOf(RecoveredRows(c)) !! recovered
  {
    var c := Record(Some(b), s, id).value;
    RecordedRows(Some(b), s, id);
    Holds(Some(b), s, id);
    forall row | row in WarnedRows(c) ensures KeyOf(row) !in warned {
      FollowedOrigin(b, warned, recovered, Account(Some(b), s).value.explainedDebit, row);
    }
    forall row | row in RecoveredRows(c) ensures KeyOf(row) in warned && KeyOf(row) !in recovered {
      FollowedOrigin(b, warned, recovered, Account(Some(b), s).value.explainedDebit, row);
    }
  }

  lemma SameKeySameRow(rows: seq<Followed>, x: Followed, y: Followed)
    requires DistinctKeys(rows) && x in rows && y in rows && KeyOf(x) == KeyOf(y)
    ensures x == y
  {
    var i :| 0 <= i < |rows| && rows[i] == x;
    var j :| 0 <= j < |rows| && rows[j] == y;
  }

  lemma HeldIsFollowed(b: Checkpoint, s: Sample, id: nat, warned: set<Key>, recovered: set<Key>, heldId: nat)
    requires Record(Some(b), s, id).Some? && Inv(Some(b), warned, recovered)
    requires Deferred(Record(Some(b), s, id).value)
    requires heldId in HeldIdsOf(Record(Some(b), s, id).value)
    ensures Account(Some(b), s).Some?
    ensures Key(heldId, Btc) in KeysOf(Followings(Some(b), Account(Some(b), s).value.explainedDebit))
  {
    hide Account, Carried, Assemble, Followings;
    var a := Account(Some(b), s).value;
    Holds(Some(b), s, id);
    FollowingsKeys(b, a.explainedDebit);
    CarriedKeys(b);
    if heldId !in HeldIdsOf(b) {
      var d :| d in b.drops && d.asset == Btc;
      var i :| 0 <= i < |b.drops| && b.drops[i] == d;
      assert FollowedFrom(b.id, b.drops)[i] in FollowedFrom(b.id, b.drops);
    }
  }

  /** A held BTC row is still listed as open at the next deferred checkpoint: the cap cannot reach it. */
  lemma HeldStaysOpen(b: Checkpoint, s: Sample, id: nat, warned: set<Key>, recovered: set<Key>, heldId: nat)
    requires Record(Some(b), s, id).Some? && Inv(Some(b), warned, recovered)
    requires Deferred(Record(Some(b), s, id).value)
    requires heldId in HeldIdsOf(Record(Some(b), s, id).value)
    ensures Key(heldId, Btc) in KeysOf(Record(Some(b), s, id).value.unrecovered)
  {
    hide Account, Followings, Drops, Changes, BackRows, Capped;
    var c := Record(Some(b), s, id).value;
    var a := Account(Some(b), s).value;
    HeldIsFollowed(b, s, id, warned, recovered, heldId);
    RecordedRows(Some(b), s, id);
    var row :| row in Followings(Some(b), a.explainedDebit) && KeyOf(row) == Key(heldId, Btc);
    assert row in c.unrecovered;
  }

  /** A row left open at `c` was warned by now, or is held by its deferral. */
  lemma OpenStep(b: Checkpoint, s: Sample, id: nat, warned: set<Key>, recovered: set<Key>, row: Followed)
    requires Record(Some(b), s, id).Some? && Inv(Some(b), warned, recovered)
    requires row in Record(Some(b), s, id).value.unrecovered
    ensures var c := Record(Some(b), s, id).value;
            && row.checkpointId <= b.id
            && KeyOf(row) !in recovered
            && KeyOf(row) !in KeysOf(RecoveredRows(c))
            && (KeyOf(row) in warned || KeyOf(row) in KeysOf(WarnedRows(c)) || IsProtected(row, HeldIdsOf(c)))
  {
    var c := Record(Some(b), s, id).value;
    var a := Account(Some(b), s).value;
    var followed := Followings(Some(b), a.explainedDebit);
    RecordedRows(Some(b), s, id);
    Holds(Some(b), s, id);
    FollowingsKeys(b, a.explainedDebit);
    FollowedOrigin(b, warned, recovered, a.explainedDebit, row);
    forall x | x in RecoveredRows(c) ensures KeyOf(x) != KeyOf(row) {
      if KeyOf(x) == KeyOf(row) { SameKeySameRow(followed, x, row); }
    }
    if !Paused(c, row) && KeyOf(row) !in warned {
      assert row in WarnedRows(c);
    }
  }

  lemma HeldStep(b: Checkpoint, s: Sample, id: nat, warned: set<Key>, recovered: set<Key>, heldId: nat)
    requires Record(Some(b), s, id).Some? && Inv(Some(b), warned, recovered)
    requires heldId in HeldIdsOf(Record(Some(b), s, id).value)
    ensures var c := Record(Some(b), s, id).value;
            && heldId <= b.id
            && Key(heldId, Btc) !in warned + KeysOf(WarnedRows(c))
            && Key(heldId, Btc) in KeysOf(c.unrecovered)
  {
    hide Record;
    var c := Record(Some(b), s, id).value;
    Holds(Some(b), s, id);
    HeldStaysOpen(b, s, id, warned, recovered, heldId);
    assert forall x :: x in WarnedRows(c) ==> x.asset != Btc;
  }

  lemma WarnedStep(b: Checkpoint, s: Sample, id: nat, warned: set<Key>, recovered: set<Key>, k: Key)
    requires Record(Some(b), s, id).Some? && Inv(Some(b), warned, recovered)
    requires k in KeysOf(WarnedRows(Record(Some(b), s, id).value))
    ensures k.checkpointId <= b.id
  {
    var c := Record(Some(b), s, id).value;
    var x :| x in WarnedRows(c) && KeyOf(x) == k;
    OpenStep(b, s, id, warned, recovered, x);
  }

  lemma InvStep(b: Checkpoint, s: Sample, id: nat, warned: set<Key>, recovered: set<Key>)
    requires Record(Some(b), s, id).Some? && Inv(Some(b), warned, recovered) && b.id < id
    ensures var c := Record(Some(b), s, id).value;
            Inv(Some(c), warned + KeysOf(WarnedRows(c)), recovered + KeysOf(RecoveredRows(c)))
  {
    var c := Record(Some(b), s, id).value;
    assert c.id == id && QuietWhileDeferred(Some(c)) && RowsHeld(c) by {
      RecordedRows(Some(b), s, id);
      Holds(Some(b), s, id);
    }
    assert recovered + KeysOf(RecoveredRows(c)) <= warned by { NoticesStep(b, s, id, warned, recovered); }
    forall row | row in c.unrecovered
      ensures row.checkpointId <= b.id && KeyOf(row) !in recovered + KeysOf(RecoveredRows(c))
      ensures KeyOf(row) in warned + KeysOf(WarnedRows(c)) || IsProtected(row, HeldIdsOf(c))
    {
      OpenStep(b, s, id, warned, recovered, row);
    }
    forall heldId | heldId in HeldIdsOf(c)
      ensures heldId <= b.id && Key(heldId, Btc) !in warned + KeysOf(WarnedRows(c)) && Key(heldId, Btc) in KeysOf(c.unrecovered)
    {
      HeldStep(b, s, id, warned, recovered, heldId);
    }
    forall k | k in KeysOf(WarnedRows(c)) ensures k.checkpointId <= b.id {
      WarnedStep(b, s, id, warned, recovered, k);
    }
    Assembled(b, c, warned, recovered);
  }

  ghost predicate RowsHeld(c: Checkpoint) {
    forall row :: row in RebalanceHeldRows(c) + WithdrawalHeldRows(c) ==> IsProtected(row, HeldIdsOf(c))
  }

  lemma Assembled(b: Checkpoint, c: Checkpoint, warned: set<Key>, recovered: set<Key>)
    requires Inv(Some(b), warned, recovered)
    requires b.id < c.id && QuietWhileDeferred(Some(c)) && RowsHeld(c)
    requires recovered + KeysOf(RecoveredRows(c)) <= warned
    requires forall row :: row in c.unrecovered ==>
               && row.checkpointId <= b.id
               && KeyOf(row) !in recovered + KeysOf(RecoveredRows(c))
               && (KeyOf(row) in warned + KeysOf(WarnedRows(c)) || IsProtected(row, HeldIdsOf(c)))
    requires forall heldId :: heldId in HeldIdsOf(c) ==>
               && heldId <= b.id
               && Key(heldId, Btc) !in warned + KeysOf(WarnedRows(c))
               && Key(heldId, Btc) in KeysOf(c.unrecovered)
    requires forall k :: k in KeysOf(WarnedRows(c)) ==> k.checkpointId <= b.id
    ensures Inv(Some(c), warned + KeysOf(WarnedRows(c)), recovered + KeysOf(RecoveredRows(c)))
  {
  }

  lemma InvFirst(s: Sample, id: nat)
    requires Record(None, s, id).Some?
    ensures var c := Record(None, s, id).value;
            Inv(Some(c), KeysOf(WarnedRows(c)), KeysOf(RecoveredRows(c)))
            && WarnedRows(c) == [] && RecoveredRows(c) == []
  {
    RecordedRows(None, s, id);
    Holds(None, s, id);
  }

  // ---- runs ----

  lemma {:induction false} ReplayPrefix(inputs: seq<Input>, n: nat)
    requires n <= |inputs|
    ensures Replay(inputs)[..n] == Replay(inputs[..n])
  {
    if n < |inputs| {
      ReplayPrefix(inputs[..|inputs| - 1], n);
      assert inputs[..|inputs| - 1][..n] == inputs[..n];
    } else {
      assert inputs[..n] == inputs;
    }
  }

  /** Each record is its own sample's, compared with the last complete checkpoint before it, whatever follows. */
  lemma ReplayAt(inputs: seq<Input>, i: nat)
    requires i < |inputs|
    ensures Replay(inputs)[i] == StepEntry(Baseline(Replay(inputs)[..i]), inputs[i])
    ensures Replay(inputs)[..i] == Replay(inputs[..i])
  {
    hide StepEntry, Baseline;
    ReplayPrefix(inputs, i);
    ReplayPrefix(inputs, i + 1);
    assert inputs[..i + 1][..i] == inputs[..i];
    assert Replay(inputs)[..i + 1][i] == Replay(inputs)[i];
  }

  /** The checkpoint compared with is the last complete one, just before position `i`; none, when none is complete. */
  lemma {:induction false} BaselineIsLast(entries: seq<Entry>, i: nat)
    requires i <= |entries| && (i > 0 ==> entries[i - 1].Recorded?)
    requires forall j :: i <= j < |entries| ==> entries[j].Incomplete?
    ensures Baseline(entries) == if i > 0 then Some(entries[i - 1].cp) else None
  {
    if i < |entries| {
      BaselineIsLast(entries[..|entries| - 1], i);
    }
  }

  lemma {:induction false} EntryIds(inputs: seq<Input>, i: nat)
    requires i < |inputs|
    ensures Replay(inputs)[i].Recorded? ==> Replay(inputs)[i].cp.id == inputs[i].id
  {
    ReplayPrefix(inputs, i + 1);
    assert Replay(inputs)[i] == Replay(inputs[..i + 1])[i];
    var earlier := Replay(inputs[..i]);
    assert inputs[..i + 1][..i] == inputs[..i];
    var entry := StepEntry(Baseline(earlier), inputs[i]);
    assert Replay(inputs)[i] == entry;
    if entry.Recorded? { RecordedRows(Baseline(earlier), inputs[i].sample, inputs[i].id); }
  }

  lemma BaselineId(inputs: seq<Input>)
    requires Ordered(inputs) && |inputs| > 0
    ensures var b := Baseline(Replay(inputs[..|inputs| - 1]));
            b.Some? ==> b.value.id < inputs[|inputs| - 1].id
  {
    var earlier := inputs[..|inputs| - 1];
    var b := Baseline(Replay(earlier));
    if b.Some? {
      var i :| 0 <= i < |earlier| && Replay(earlier)[i] == Recorded(b.value);
      EntryIds(earlier, i);
    }
  }

  lemma {:induction false} RunInv(inputs: seq<Input>)
    requires Ordered(inputs)
    ensures Inv(Baseline(Replay(inputs)), WarnedKeys(Replay(inputs)), RecoveredKeys(Replay(inputs)))
  {
    if inputs != [] {
      var n := |inputs| - 1;
      var earlier := Replay(inputs[..n]);
      RunInv(inputs[..n]);
      BaselineId(inputs);
      assert Replay(inputs)[..n] == earlier;
      var entry := Replay(inputs)[n];
      if entry.Recorded? {
        if Baseline(earlier).None? {
          InvFirst(inputs[n].sample, inputs[n].id);
        } else {
          InvStep(Baseline(earlier).value, inputs[n].sample, inputs[n].id, WarnedKeys(earlier), RecoveredKeys(earlier));
        }
      }
    }
  }

  lemma {:induction false} NamedBefore(entries: seq<Entry>, i: nat)
    requires i < |entries| && entries[i].Recorded?
    ensures KeysOf(WarnedRows(entries[i].cp)) <= WarnedKeys(entries)
    ensures KeysOf(RecoveredRows(entries[i].cp)) <= RecoveredKeys(entries)
  {
    if i < |entries| - 1 { NamedBefore(entries[..|entries| - 1], i); }
  }

  lemma {:induction false} WarnedWhen(entries: seq<Entry>, k: Key) returns (i: nat)
    requires k in WarnedKeys(entries)
    ensures i < |entries| && entries[i].Recorded? && k in KeysOf(WarnedRows(entries[i].cp))
  {
    var n := |entries| - 1;
    if entries[n].Recorded? && k in KeysOf(WarnedRows(entries[n].cp)) { return n; }
    i := WarnedWhen(entries[..n], k);
  }

  /** The notices at position `j` of a run, against everything noticed before it. */
  lemma NoticesAt(inputs: seq<Input>, j: nat)
    requires Ordered(inputs) && j < |inputs| && Replay(inputs)[j].Recorded?
    ensures var c := Replay(inputs)[j].cp;
            && KeysOf(WarnedRows(c)) !! WarnedKeys(Replay(inputs)[..j])
            && KeysOf(RecoveredRows(c)) <= WarnedKeys(Replay(inputs)[..j])
            && KeysOf(RecoveredRows(c)) !! RecoveredKeys(Replay(inputs)[..j])
  {
    hide Record, WarnedRows, RecoveredRows, WarnedKeys, RecoveredKeys;
    ReplayPrefix(inputs, j);
    ReplayPrefix(inputs, j + 1);
    assert inputs[..j + 1][..j] == inputs[..j];
    var earlier := Replay(inputs[..j]);
    assert Replay(inputs)[j] == Replay(inputs[..j + 1])[j] == StepEntry(Baseline(earlier), inputs[j]);
    RunInv(inputs[..j]);
    if Baseline(earlier).None? {
      InvFirst(inputs[j].sample, inputs[j].id);
    } else {
      NoticesStep(Baseline(earlier).value, inputs[j].sample, inputs[j].id, WarnedKeys(earlier), RecoveredKeys(earlier));
    }
  }

  /**
   * No decrease is warned by two checkpoints of a run, none is recovered by two, and
   * whatever is recovered was warned by an earlier one.
   */
  lemma WarnedOnceRecoveredAfter(inputs: seq<Input>, j: nat, k: Key)
    requires Ordered(inputs) && j < |inputs| && Replay(inputs)[j].Recorded?
    ensures var entries := Replay(inputs);
            && (k in KeysOf(WarnedRows(entries[j].cp)) ==>
                  forall i :: 0 <= i < j && entries[i].Recorded? ==> k !in KeysOf(WarnedRows(entries[i].cp)))
            && (k in KeysOf(RecoveredRows(entries[j].cp)) ==>
                  (exists i :: 0 <= i < j && entries[i].Recorded? && k in KeysOf(WarnedRows(entries[i].cp)))
                  && forall i :: 0 <= i < j && entries[i].Recorded? ==> k !in KeysOf(RecoveredRows(entries[i].cp)))
  {
    var entries := Replay(inputs);
    NoticesAt(inputs, j);
    forall i | 0 <= i < j && entries[i].Recorded?
      ensures KeysOf(WarnedRows(entries[i].cp)) <= WarnedKeys(entries[..j])
      ensures KeysOf(RecoveredRows(entries[i].cp)) <= RecoveredKeys(entries[..j])
    {
      NamedBefore(entries[..j], i);
    }
    if k in KeysOf(RecoveredRows(entries[j].cp)) {
      var i := WarnedWhen(entries[..j], k);
      assert entries[i] == entries[..j][i];
    }
  }

  // ---- nothing that falls due is lost ----

  /** `k` was recorded at `b` and falls due at the next checkpoint, or fell due under a deferral that holds it. */
  ghost predicate Awaiting(b: Option<Checkpoint>, k: Key) {
    b.Some?
    && ((k.checkpointId == b.value.id && exists d :: d in b.value.drops && d.asset == k.asset)
        || (k.asset == Btc && k.checkpointId in HeldIdsOf(b.value)))
  }

  /** How `c` deals with a followed row: silently closed, warned, or cut by the limit. */
  ghost predicate Settles(held: set<nat>, s: Sample, a: Accounts, c: Checkpoint, row: Followed) {
    var k := KeyOf(row);
    if Back(s, a, row) then
      k !in KeysOf(c.unrecovered) && k !in KeysOf(WarnedRows(c)) && k !in KeysOf(RecoveredRows(c))
    else if row in c.unrecovered then
      k in KeysOf(WarnedRows(c)) && k !in KeysOf(RecoveredRows(c))
    else
      k !in KeysOf(WarnedRows(c)) && |c.unrecovered| >= UNRECOVERED_LIMIT && !IsProtected(row, held)
  }

  /** What a checkpoint that is free to speak does with an awaited row: exactly one of those three. */
  ghost predicate SettledBy(b: Checkpoint, s: Sample, id: nat, k: Key)
    requires Record(Some(b), s, id).Some?
  {
    var a := Account(Some(b), s).value;
    exists row :: row in Followings(Some(b), a.explainedDebit) && KeyOf(row) == k
      && Settles(HeldIdsOf(b), s, a, Record(Some(b), s, id).value, row)
  }

  lemma AwaitedIsFollowed(b: Checkpoint, warned: set<Key>, recovered: set<Key>, explainedDebit: nat, k: Key)
    requires Inv(Some(b), warned, recovered) && Awaiting(Some(b), k)
    ensures k in KeysOf(Followings(Some(b), explainedDebit))
  {
    FollowingsKeys(b, explainedDebit);
    CarriedKeys(b);
    if k.checkpointId == b.id && exists d :: d in b.drops && d.asset == k.asset {
      var i :| 0 <= i < |b.drops| && b.drops[i].asset == k.asset;
      assert FollowedFrom(b.id, b.drops)[i] in FollowedFrom(b.id, b.drops);
    }
  }

  /** At the next recorded checkpoint an awaited row is either held on, or settled for good. */
  lemma AwaitedIsSettled(b: Checkpoint, s: Sample, id: nat, warned: set<Key>, recovered: set<Key>, k: Key)
    requires Record(Some(b), s, id).Some? && Inv(Some(b), warned, recovered) && Awaiting(Some(b), k)
    ensures var c := Record(Some(b), s, id).value;
            if k.asset == Btc && Deferred(c)
            then Awaiting(Some(c), k) && k in KeysOf(c.unrecovered)
            else SettledBy(b, s, id, k)
  {
    var c := Record(Some(b), s, id).value;
    var a := Account(Some(b), s).value;
    AwaitedIsFollowed(b, warned, recovered, a.explainedDebit, k);
    Holds(Some(b), s, id);
    if k.asset == Btc && Deferred(c) {
      assert k.checkpointId in HeldIdsOf(c);
      HeldStaysOpen(b, s, id, warned, recovered, k.checkpointId);
    } else {
      var row :| row in Followings(Some(b), a.explainedDebit) && KeyOf(row) == k;
      RowSettled(b, s, id, row);
    }
  }

  lemma RowSettled(b: Checkpoint, s: Sample, id: nat, row: Followed)
    requires Record(Some(b), s, id).Some? && QuietWhileDeferred(Some(b))
    requires row in Followings(Some(b), Account(Some(b), s).value.explainedDebit)
    requires row.checkpointId == b.id || IsProtected(row, HeldIdsOf(b))
    requires !Paused(Record(Some(b), s, id).value, row)
    ensures SettledBy(b, s, id, KeyOf(row))
  {
    var c := Record(Some(b), s, id).value;
    var a := Account(Some(b), s).value;
    var followed := Followings(Some(b), a.explainedDebit);
    RecordedRows(Some(b), s, id);
    Holds(Some(b), s, id);
    FollowingsKeys(b, a.explainedDebit);
    SettlesFrom(HeldIdsOf(b), s, a, c, followed, row);
  }

  lemma SettlesFrom(held: set<nat>, s: Sample, a: Accounts, c: Checkpoint, followed: seq<Followed>, row: Followed)
    requires DistinctKeys(followed) && row in followed
    requires forall x :: x in c.unrecovered + c.recovered ==> x in followed
    requires forall x :: x in c.unrecovered ==> !Back(s, a, x)
    requires !Paused(c, row) && Due(c, row)
    requires CutAt(s, a, c, row) ==>
               !IsProtected(row, ProtectedIds(c.rebalance, c.withdrawals)) && |c.unrecovered| >= UNRECOVERED_LIMIT
    requires row.asset == Btc ==> ProtectedIds(c.rebalance, c.withdrawals) == held
    ensures Settles(held, s, a, c, row)
  {
    forall x | x in RecoveredRows(c) ensures KeyOf(x) != KeyOf(row) {
      assert !Due(c, x);
    }
    if Back(s, a, row) || row !in c.unrecovered {
      forall x | x in c.unrecovered ensures KeyOf(x) != KeyOf(row) {
        if KeyOf(x) == KeyOf(row) { SameKeySameRow(followed, x, row); }
      }
    } else {
      assert row in WarnedRows(c);
    }
  }

  ghost predicate SettledWith(b: Option<Checkpoint>, i: Input, k: Key) {
    b.Some? && i.Read? && Record(b, i.sample, i.id).Some? && SettledBy(b.value, i.sample, i.id, k)
  }

  ghost predicate SettledAt(inputs: seq<Input>, j: nat, k: Key) {
    j < |inputs| && SettledWith(Baseline(Replay(inputs[..j])), inputs[j], k)
  }

  /**
   * The fate of a recorded decrease, over any continuation of the run: it is still
   * awaited (only a deferral can keep it so), or one later checkpoint settled it.
   */
  lemma {:induction false} DecreaseFate(inputs: seq<Input>, i: nat, d: Decrease)
    requires Ordered(inputs) && i < |inputs|
    requires Replay(inputs)[i].Recorded? && d in Replay(inputs)[i].cp.drops
    ensures FateOpen(inputs, i, Key(Replay(inputs)[i].cp.id, d.asset))
    decreases |inputs|, 1
  {
    var n := |inputs| - 1;
    if i == n {
      FreshlyAwaited(inputs, d);
    } else {
      FateLater(inputs, i, d);
    }
  }

  lemma FateLater(inputs: seq<Input>, i: nat, d: Decrease)
    requires Ordered(inputs) && i < |inputs| - 1
    requires Replay(inputs)[i].Recorded? && d in Replay(inputs)[i].cp.drops
    ensures FateOpen(inputs, i, Key(Replay(inputs)[i].cp.id, d.asset))
    decreases |inputs|, 0
  {
    hide *;
    var n := |inputs| - 1;
    var k := Key(Replay(inputs)[i].cp.id, d.asset);
    ReplayStep(inputs);
    assert Replay(inputs)[i] == Replay(inputs[..n])[i];
    OrderedPrefix(inputs, n);
    DecreaseFate(inputs[..n], i, d);
    FateExtends(inputs, i, k);
  }

  ghost predicate FateOpen(inputs: seq<Input>, i: nat, k: Key) {
    Awaiting(Baseline(Replay(inputs)), k) || exists j :: i < j && SettledAt(inputs, j, k)
  }

  lemma FateExtends(inputs: seq<Input>, i: nat, k: Key)
    requires Ordered(inputs) && i < |inputs| - 1 && FateOpen(inputs[..|inputs| - 1], i, k)
    ensures FateOpen(inputs, i, k)
  {
    hide Awaiting, SettledWith, StepEntry, Replay;
    var n := |inputs| - 1;
    if j :| i < j && SettledAt(inputs[..n], j, k) {
      SettledStays(inputs, n, j, k);
    } else {
      FateStep(inputs, k);
      if SettledWith(Baseline(Replay(inputs[..n])), inputs[n], k) {
        assert SettledAt(inputs, n, k);
      }
    }
  }

  lemma FreshlyAwaited(inputs: seq<Input>, d: Decrease)
    requires inputs != [] && Replay(inputs)[|inputs| - 1].Recorded? && d in Replay(inputs)[|inputs| - 1].cp.drops
    ensures Awaiting(Baseline(Replay(inputs)), Key(Replay(inputs)[|inputs| - 1].cp.id, d.asset))
  {
    var c := Replay(inputs)[|inputs| - 1].cp;
    assert Baseline(Replay(inputs)) == Some(c);
  }

  lemma SettledStays(inputs: seq<Input>, n: nat, j: nat, k: Key)
    requires n <= |inputs| && SettledAt(inputs[..n], j, k)
    ensures SettledAt(inputs, j, k)
  {
    hide Replay, Baseline, SettledWith;
    assert inputs[..n][..j] == inputs[..j];
    assert inputs[..n][j] == inputs[j];
  }

  lemma FateOf(b: Checkpoint, i: Input, warned: set<Key>, recovered: set<Key>, k: Key)
    requires Inv(Some(b), warned, recovered) && Awaiting(Some(b), k) && StepEntry(Some(b), i).Recorded?
    ensures Awaiting(Some(StepEntry(Some(b), i).cp), k) || SettledWith(Some(b), i, k)
  {
    AwaitedIsSettled(b, i.sample, i.id, warned, recovered, k);
  }

  lemma BaselineAppend(earlier: seq<Entry>, entry: Entry)
    ensures Baseline(earlier + [entry]) == if entry.Recorded? then Some(entry.cp) else Baseline(earlier)
  {
    assert (earlier + [entry])[..|earlier|] == earlier;
  }

  lemma ReplayStep(inputs: seq<Input>)
    requires inputs != []
    ensures var earlier := Replay(inputs[..|inputs| - 1]);
            Replay(inputs) == earlier + [StepEntry(Baseline(earlier), inputs[|inputs| - 1])]
  {
  }

  lemma FateStep(inputs: seq<Input>, k: Key)
    requires Ordered(inputs) && inputs != [] && Awaiting(Baseline(Replay(inputs[..|inputs| - 1])), k)
    ensures Awaiting(Baseline(Replay(inputs)), k)
            || SettledWith(Baseline(Replay(inputs[..|inputs| - 1])), inputs[|inputs| - 1], k)
  {
    hide *;
    var n := |inputs| - 1;
    var earlier := Replay(inputs[..n]);
    var b := Baseline(earlier);
    ReplayStep(inputs);
    BaselineAppend(earlier, StepEntry(b, inputs[n]));
    RunInv(inputs[..n]) by { OrderedPrefix(inputs, n); }
    if StepEntry(b, inputs[n]).Recorded? {
      AwaitingSome(b, k);
      FateOf(b.value, inputs[n], WarnedKeys(earlier), RecoveredKeys(earlier), k);
    }
  }

  lemma AwaitingSome(b: Option<Checkpoint>, k: Key)
    requires Awaiting(b, k)
    ensures b.Some?
  {
  }

  lemma OrderedPrefix(inputs: seq<Input>, n: nat)
    requires Ordered(inputs) && n <= |inputs|
    ensures Ordered(inputs[..n])
  {
  }
}
