/**
 * How much the rebalance accounting can hide: over every run, the comparison exceeds the
 * raw total by no more than the fees of completed transfers, each counted once, and the
 * source debits actually observed for those still in flight.
 */
module RebalanceMasking {
  import opened Util
  import opened CheckpointTypes
  import opened Rebalances

  // ---- the journal over time ----

  /** The same transfer later on: its terms are fixed, a completion is final, and a charge is not undone. */
  ghost predicate Later(a: Transfer, b: Transfer) {
    a.id == b.id && a.debitSats == b.debitSats && a.feeSats == b.feeSats
    && (a.state == Completed ==> b.state == Completed)
  }

  /** The journal keeps listing what it listed. */
  ghost predicate Succeeds(earlier: seq<Transfer>, rows: seq<Transfer>) {
    DistinctTransfers(rows)
    && forall row :: row in earlier ==> exists now :: now in rows && Later(row, now)
  }

  function CompletedIds(rows: seq<Transfer>): set<Id> {
    set row | row in rows && row.state == Completed :: row.id
  }

  function FeeIn(rows: seq<Transfer>, id: Id): nat {
    var row := Lookup(rows, id);
    if row.Some? then row.value.feeSats else 0
  }

  ghost function Fees(rows: seq<Transfer>): nat -> nat {
    id => FeeIn(rows, id)
  }

  /** The fee ceilings of every completed transfer the journal lists. */
  ghost function CompletedFees(rows: seq<Transfer>): nat {
    SumOf(CompletedIds(rows), Fees(rows))
  }

  // ---- the invariant ----

  ghost predicate DistinctHeld(pending: seq<Held>) {
    forall i, j :: 0 <= i < j < |pending| ==> pending[i].id != pending[j].id
  }

  /** What is still in flight never exceeds the observed debit, nor that the authorised one. */
  ghost predicate BackedBy(rows: seq<Transfer>, h: Held) {
    Lookup(rows, h.id).Some? && h.remainingSats <= h.observedDebitSats <= Lookup(rows, h.id).value.debitSats
  }

  ghost predicate Backed(rows: seq<Transfer>, pending: seq<Held>) {
    forall i :: 0 <= i < |pending| ==> BackedBy(rows, pending[i])
  }

  /** The state after a sample whose journal was `rows`. */
  ghost predicate Masked(r: Rebalance, totalSats: nat, rows: seq<Transfer>) {
    && r.version2
    && r.seenIds == IdsOf(rows)
    && DistinctHeld(r.pending)
    && Backed(rows, r.pending)
    && (forall h :: h in r.pending ==> StillPending(rows, h))
    && 0 <= r.feeAllowanceUsedSats <= CompletedFees(rows)
    && (r.attributionDeferred.None? ==>
          r.comparisonTotalSats == totalSats + r.feeAllowanceUsedSats + RemainingSats(r.pending))
  }

  // ---- carrying sums from one journal to the next ----

  lemma {:induction false} SumOfSame(s: set<nat>, f: nat -> nat, g: nat -> nat)
    requires forall x :: x in s ==> f(x) == g(x)
    ensures SumOf(s, f) == SumOf(s, g)
    decreases |s|
  {
    if s != {} {
      var x :| x in s;
      SumOfRemove(s, f, x);
      SumOfRemove(s, g, x);
      SumOfSame(s - {x}, f, g);
    }
  }

  lemma LaterRow(earlier: seq<Transfer>, rows: seq<Transfer>, id: Id)
    requires Succeeds(earlier, rows) && Lookup(earlier, id).Some?
    ensures Lookup(rows, id).Some? && Later(Lookup(earlier, id).value, Lookup(rows, id).value)
  {
    var now :| now in rows && Later(Lookup(earlier, id).value, now);
    LookupDistinct(rows, now);
  }

  lemma CompletedLater(earlier: seq<Transfer>, rows: seq<Transfer>)
    requires DistinctTransfers(earlier) && Succeeds(earlier, rows)
    ensures CompletedIds(earlier) <= CompletedIds(rows)
    ensures SumOf(CompletedIds(earlier), Fees(rows)) == CompletedFees(earlier)
  {
    forall id | id in CompletedIds(earlier)
      ensures id in CompletedIds(rows) && FeeIn(earlier, id) == FeeIn(rows, id)
    {
      var row :| row in earlier && row.state == Completed && row.id == id;
      LookupDistinct(earlier, row);
      LaterRow(earlier, rows, id);
    }
    SumOfSame(CompletedIds(earlier), Fees(rows), Fees(earlier));
  }

  // ---- the three passes ----

  /** What the first pass may have counted: earlier completions, and those first seen here. */
  ghost predicate Counted(counted: set<Id>, before: set<Id>, rows: seq<Transfer>, n: nat)
    requires n <= |rows|
  {
    counted <= before + CompletedIds(rows[..n])
  }

  lemma AdmitPending(previous: Option<Checkpoint>, a: Attribution, rows: seq<Transfer>, n: nat)
    requires n <= |rows| && DistinctTransfers(rows) && DistinctHeld(a.pending)
    ensures var r := AdmitAll(previous, a, rows[..n]);
            && DistinctHeld(r.pending)
            && a.pending <= r.pending
            && forall k :: |a.pending| <= k < |r.pending| ==>
                 exists row :: row in rows[..n] && IsPending(row) && row.id == r.pending[k].id
                   && r.pending[k].remainingSats == r.pending[k].observedDebitSats == 0
  {
    if n > 0 {
      AdmitPending(previous, a, rows, n - 1);
      assert rows[..n][..n - 1] == rows[..n - 1];
      var before := AdmitAll(previous, a, rows[..n - 1]);
      var r := AdmitAll(previous, a, rows[..n]);
      assert r == Admit(previous, before, rows[n - 1]);
      assert rows[n - 1] in rows[..n];
      forall k | |a.pending| <= k < |r.pending|
        ensures exists row :: row in rows[..n] && IsPending(row) && row.id == r.pending[k].id
                  && r.pending[k].remainingSats == r.pending[k].observedDebitSats == 0
      {
        if k < |before.pending| {
          assert r.pending[k] == before.pending[k];
          var row :| row in rows[..n - 1] && IsPending(row) && row.id == before.pending[k].id;
          assert row in rows[..n];
        }
      }
    }
  }

  lemma {:induction false} AdmitFees(previous: Option<Checkpoint>, a: Attribution, rows: seq<Transfer>, n: nat, before: set<Id>)
    returns (counted: set<Id>)
    requires n <= |rows| && DistinctTransfers(rows)
    requires before <= PriorSeen(previous) && 0 <= a.feeAllowance <= SumOf(before, Fees(rows))
    requires forall h :: h in a.pending ==> h.id !in before
    ensures Counted(counted, before, rows, n)
    ensures 0 <= AdmitAll(previous, a, rows[..n]).feeAllowance <= SumOf(counted, Fees(rows))
    ensures forall h :: h in a.pending ==> h.id !in counted
  {
    if n == 0 {
      return before;
    }
    counted := AdmitFees(previous, a, rows, n - 1, before);
    assert rows[..n][..n - 1] == rows[..n - 1];
    var r := AdmitAll(previous, a, rows[..n - 1]);
    var row := rows[n - 1];
    assert row in rows && row in rows[..n];
    if r.feeAllowance != Admit(previous, r, row).feeAllowance {
      AdmitKeeps(previous, a, rows[..n - 1]);
      assert row.state == Completed && !HoldsId(r.pending, row.id);
      assert row.id !in CompletedIds(rows[..n - 1]);
      LookupDistinct(rows, row);
      SumOfAdd(counted, Fees(rows), row.id);
      counted := counted + {row.id};
    }
  }

  lemma {:induction false} AdmitKeeps(previous: Option<Checkpoint>, a: Attribution, rows: seq<Transfer>)
    ensures a.pending <= AdmitAll(previous, a, rows).pending
  {
    if rows != [] { AdmitKeeps(previous, a, rows[..|rows| - 1]); }
  }

  /** The second pass only fills in debits, never above what is authorised. */
  lemma {:induction false} ObserveBacked(rows: seq<Transfer>, a: Attribution, n: nat)
    requires n <= |a.pending| && Backed(rows, a.pending)
    ensures var r := ObserveUpTo(rows, a, n);
            && Backed(rows, r.pending)
            && r.feeAllowance == a.feeAllowance
            && forall k :: 0 <= k < |a.pending| ==> r.pending[k].id == a.pending[k].id
  {
    if n > 0 {
      ObserveBacked(rows, a, n - 1);
      var before := ObserveUpTo(rows, a, n - 1);
      ObserveOne(rows, before, n - 1);
    }
  }

  lemma ObserveOne(rows: seq<Transfer>, a: Attribution, i: nat)
    requires i < |a.pending| && BackedBy(rows, a.pending[i])
    ensures var r := Observe(rows, a, i);
            && r.feeAllowance == a.feeAllowance
            && BackedBy(rows, r.pending[i]) && r.pending[i].id == a.pending[i].id
            && forall k :: 0 <= k < |a.pending| && k != i ==> r.pending[k] == a.pending[k]
  {
  }

  /** The third pass counts each finished transfer once. */
  lemma {:induction false} DoneFees(rows: seq<Transfer>, pending: seq<Held>, counted: set<Id>) returns (all: set<Id>)
    requires DistinctTransfers(rows) && DistinctHeld(pending) && counted <= CompletedIds(rows)
    requires forall h :: h in pending && !StillPending(rows, h) ==> h.id !in counted
    ensures all <= CompletedIds(rows)
    ensures all <= counted + (set h | h in pending :: h.id)
    ensures SumOf(counted, Fees(rows)) + FeesOfDone(rows, pending) <= SumOf(all, Fees(rows))
  {
    if pending == [] { return counted; }
    var n := |pending| - 1;
    assert pending == pending[..n] + [pending[n]];
    all := DoneFees(rows, pending[..n], counted);
    var h := pending[n];
    var row := Lookup(rows, h.id);
    if !StillPending(rows, h) && row.Some? && CompletionAllowance(row.value, h.observedDebitSats) > 0 {
      assert h.id !in all;
      SumOfAdd(all, Fees(rows), h.id);
      all := all + {h.id};
    }
  }

  // ---- one sample ----

  /** The first pass leaves everything it follows backed by its journal row. */
  lemma AdmittedBacked(previous: Option<Checkpoint>, a: Attribution, rows: seq<Transfer>)
    requires DistinctTransfers(rows) && DistinctHeld(a.pending) && Backed(rows, a.pending)
    ensures var r := AdmitAll(previous, a, rows); DistinctHeld(r.pending) && Backed(rows, r.pending)
  {
    AdmitPending(previous, a, rows, |rows|);
    assert rows[..|rows|] == rows;
    var r := AdmitAll(previous, a, rows);
    forall k | 0 <= k < |r.pending| ensures BackedBy(rows, r.pending[k]) {
      if k < |a.pending| {
        assert r.pending[k] == a.pending[k];
      } else {
        var row :| row in rows && IsPending(row) && row.id == r.pending[k].id;
        LookupDistinct(rows, row);
      }
    }
  }

  /** The journal an ordinary accounting reads: nothing overlaps, and it goes on from the last one. */
  ghost predicate Continues(b: Checkpoint, earlier: seq<Transfer>, rows: seq<Transfer>) {
    && b.rebalance.Some? && Masked(b.rebalance.value, b.totalSats, earlier)
    && DistinctTransfers(earlier) && Succeeds(earlier, rows)
  }

  lemma HeldCarried(b: Checkpoint, earlier: seq<Transfer>, rows: seq<Transfer>)
    requires Continues(b, earlier, rows)
    ensures Backed(rows, b.rebalance.value.pending)
    ensures forall h :: h in b.rebalance.value.pending ==> h.id !in CompletedIds(earlier)
    ensures FirstMissing(rows, HeldIds(b.rebalance.value.pending)).None?
  {
    var pending := b.rebalance.value.pending;
    forall k | 0 <= k < |pending| ensures BackedBy(rows, pending[k]) {
      assert BackedBy(earlier, pending[k]);
      LaterRow(earlier, rows, pending[k].id);
    }
    forall h | h in pending ensures h.id !in CompletedIds(earlier) {
      assert StillPending(earlier, h);
      forall row | row in earlier && row.id == h.id ensures row.state != Completed {
        LookupDistinct(earlier, row);
      }
    }
    forall id | id in HeldIds(pending) ensures Lookup(rows, id).Some? {
      var k :| 0 <= k < |pending| && pending[k].id == id;
      assert BackedBy(rows, pending[k]);
    }
  }

  lemma {:induction false} RemainingHeld(rows: seq<Transfer>, pending: seq<Held>)
    requires DistinctHeld(pending) && Backed(rows, pending)
    ensures var r := Remaining(rows, pending);
            DistinctHeld(r) && Backed(rows, r) && forall h :: h in r ==> StillPending(rows, h)
  {
    var r := Remaining(rows, pending);
    if pending != [] {
      var n := |pending| - 1;
      assert pending == pending[..n] + [pending[n]];
      RemainingHeld(rows, pending[..n]);
      var before := Remaining(rows, pending[..n]);
      forall i | 0 <= i < |before| ensures before[i].id != pending[n].id {
        assert before[i] in pending[..n];
      }
      assert r == before || r == before + [pending[n]];
    }
  }

  /** Who the second pass leaves: the held of `b`, none of them counted, and rows still pending. */
  lemma ObservedHeld(b: Checkpoint, earlier: seq<Transfer>, rows: seq<Transfer>, totalSats: nat, arkadeSats: nat, counted: set<Id>)
    requires Continues(b, earlier, rows)
    requires forall h :: h in b.rebalance.value.pending ==> h.id !in counted
    ensures var a := Attributed(Some(b), totalSats, arkadeSats, rows);
            && DistinctHeld(a.pending) && Backed(rows, a.pending)
            && (forall h :: h in a.pending && !StillPending(rows, h) ==> h.id !in counted)
            && a.feeAllowance == AdmitAll(Some(b), Start(Some(b), totalSats, arkadeSats), rows).feeAllowance
  {
    var start := Start(Some(b), totalSats, arkadeSats);
    HeldCarried(b, earlier, rows);
    AdmittedBacked(Some(b), start, rows);
    var admitted := AdmitAll(Some(b), start, rows);
    ObserveBacked(rows, admitted, |admitted.pending|);
    AdmitPending(Some(b), start, rows, |rows|);
    assert rows[..|rows|] == rows;
    var a := Attributed(Some(b), totalSats, arkadeSats, rows);
    forall k | 0 <= k < |a.pending| && !StillPending(rows, a.pending[k]) ensures a.pending[k].id !in counted {
      if k < |start.pending| {
        assert a.pending[k].id == start.pending[k].id;
      } else {
        var row :| row in rows && IsPending(row) && row.id == admitted.pending[k].id;
        LookupDistinct(rows, row);
      }
    }
  }

  /** Every sample keeps the masking bounded. */
  lemma MaskedStep(b: Checkpoint, earlier: seq<Transfer>, rows: seq<Transfer>, totalSats: nat, arkadeSats: nat)
    requires Continues(b, earlier, rows)
    ensures var r := Accounted(Some(b), totalSats, arkadeSats, rows); r.Ok? && Masked(r.value, totalSats, rows)
  {
    var start := Start(Some(b), totalSats, arkadeSats);
    HeldCarried(b, earlier, rows);
    CompletedLater(earlier, rows);
    var counted := AdmitFees(Some(b), start, rows, |rows|, CompletedIds(earlier));
    assert rows[..|rows|] == rows;
    ObservedHeld(b, earlier, rows, totalSats, arkadeSats, counted);
    var a := Attributed(Some(b), totalSats, arkadeSats, rows);
    var all := DoneFees(rows, a.pending, counted);
    SumOfMonotone(all, CompletedIds(rows), Fees(rows));
    RemainingHeld(rows, a.pending);
  }

  /** The first sample of a run follows what is in flight and excuses nothing. */
  lemma {:induction false} FirstAdmits(a: Attribution, rows: seq<Transfer>, n: nat)
    requires n <= |rows|
    ensures AdmitAll(None, a, rows[..n]).feeAllowance == a.feeAllowance
  {
    if n > 0 {
      FirstAdmits(a, rows, n - 1);
      assert rows[..n][..n - 1] == rows[..n - 1];
    }
  }

  lemma MaskedFirst(rows: seq<Transfer>, totalSats: nat, arkadeSats: nat)
    requires DistinctTransfers(rows)
    ensures var r := Accounted(None, totalSats, arkadeSats, rows); r.Ok? && Masked(r.value, totalSats, rows)
  {
    var start := Start(None, totalSats, arkadeSats);
    FirstAdmits(start, rows, |rows|);
    AdmitPending(None, start, rows, |rows|);
    assert rows[..|rows|] == rows;
    AdmittedBacked(None, start, rows);
    var admitted := AdmitAll(None, start, rows);
    ObserveBacked(rows, admitted, |admitted.pending|);
    var a := Attributed(None, totalSats, arkadeSats, rows);
    forall k | 0 <= k < |a.pending| ensures StillPending(rows, a.pending[k]) {
      var row :| row in rows && IsPending(row) && row.id == admitted.pending[k].id;
      LookupDistinct(rows, row);
    }
    NoneDone(rows, a.pending);
    RemainingHeld(rows, a.pending);
    assert HeldIds([]) == [];
  }

  lemma {:induction false} NoneDone(rows: seq<Transfer>, pending: seq<Held>)
    requires forall h :: h in pending ==> StillPending(rows, h)
    ensures FeesOfDone(rows, pending) == 0
  {
    if pending != [] { NoneDone(rows, pending[..|pending| - 1]); }
  }
}
