/**
 * No false alarm over whole runs: where only tracked rebalances move money, BTC is compared on
 * its first level plus exactly what each interval's division of the drop gained or lost, so a
 * decrease is reported if and only if that balance fell since the last comparison made.
 */
module QuietRuns {
  import opened Util
  import opened CheckpointTypes
  import opened Checkpoints
  import opened CheckpointWarnings
  import D = CheckpointDeferral
  import M = CheckpointMasking
  import opened NoFalseAlarm
  import opened AttributionGains
  import R = Rebalances
  import W = WithdrawalAccounting

  /** One reading of such a run, with how far the moves had come; a reading that failed saw nothing. */
  datatype Sight = Failed(id: nat) | Seen(id: nat, sample: Sample, at: Progress, listedFrom: nat)

  function InputOf(e: Sight): Input {
    match e
    case Failed(id) => Unread(id)
    case Seen(id, sample, _, _) => Read(id, sample)
  }

  function InputsOf(run: seq<Sight>): (r: seq<Input>)
    ensures |r| == |run| && forall i :: 0 <= i < |r| ==> r[i] == InputOf(run[i])
  {
    seq(|run|, i requires 0 <= i < |run| => InputOf(run[i]))
  }

  ghost function LastSeen(run: seq<Sight>): (r: Option<Sight>)
    ensures r.Some? ==> r.value.Seen?
  {
    if run == [] then None
    else if run[|run| - 1].Seen? then Some(run[|run| - 1])
    else LastSeen(run[..|run| - 1])
  }

  ghost function FirstSeen(run: seq<Sight>): (r: Option<Sight>)
    ensures r.Some? ==> r.value.Seen?
    ensures r.Some? <==> LastSeen(run).Some?
  {
    if run == [] then None
    else
      var earlier, e := run[..|run| - 1], run[|run| - 1];
      if FirstSeen(earlier).Some? then FirstSeen(earlier) else if e.Seen? then Some(e) else None
  }

  /** What is moved, and the readings it all starts from. */
  datatype World = World(ms: seq<Move>, arkade0: nat, total0: nat)

  /** The reading and both journals show the moves as far as they have come, and nothing else. */
  ghost predicate True(world: World, e: Sight)
    requires e.Seen?
  {
    && SoundMoves(world.ms) && InRange(world.ms, e.at) && e.listedFrom <= e.at.done
    && Reads(world.ms, world.arkade0, world.total0, e.at, e.sample.arkadeSats, e.sample.totalSats)
    && e.sample.transfers == Some(Journal(world.ms, e.at, e.listedFrom))
    && e.sample.withdrawals == []
  }

  /** A run may begin anywhere; the journal lists what the last reading had not seen settled. */
  ghost predicate Follows(world: World, earlier: Option<Sight>, e: Sight)
    requires e.Seen? && (earlier.Some? ==> earlier.value.Seen?)
  {
    earlier.Some? ==> NotBefore(earlier.value.at, e.at) && earlier.value.listedFrom <= e.listedFrom <= earlier.value.at.done
  }

  ghost predicate Faithful(world: World, run: seq<Sight>)
    ensures Faithful(world, run) && LastSeen(run).Some? ==>
              True(world, LastSeen(run).value) && True(world, FirstSeen(run).value)
              && NotBefore(FirstSeen(run).value.at, LastSeen(run).value.at)
  {
    run == [] ||
    var earlier, e := run[..|run| - 1], run[|run| - 1];
    && Faithful(world, earlier)
    && (e.Seen? ==> True(world, e) && Follows(world, LastSeen(earlier), e))
  }

  // ---- what the readings, the journal and the beginning of the run decide ----

  ghost function DropOf(l: Sight, e: Sight): nat
    requires l.Seen? && e.Seen?
  {
    Positive(l.sample.arkadeSats - e.sample.arkadeSats)
  }

  ghost function DeltaOf(l: Sight, e: Sight): int
    requires l.Seen? && e.Seen?
  {
    e.sample.totalSats - l.sample.totalSats
  }

  /** A pair of readings of one run. */
  ghost predicate Pair(world: World, l: Sight, e: Sight) {
    && l.Seen? && e.Seen? && True(world, l) && True(world, e) && Follows(world, Some(l), e)
    && Known(world.ms, l.at, e.at) && WholeUpTo(l.at, e.at) <= |world.ms|
  }

  lemma PairOf(world: World, l: Sight, e: Sight)
    requires l.Seen? && e.Seen? && True(world, l) && True(world, e) && Follows(world, Some(l), e)
    ensures Pair(world, l, e)
  {
  }

  /** What the move in flight has been given; one found in flight at first counts as seen, with no share. */
  ghost function CarryOf(world: World, run: seq<Sight>): Carry
    requires Faithful(world, run)
  {
    if run == [] then NOTHING
    else
      var earlier, e := run[..|run| - 1], run[|run| - 1];
      if e.Failed? then CarryOf(world, earlier)
      else if LastSeen(earlier).None? then (if e.at.phase == Idle then NOTHING else Carry(true, 0))
      else
        var l := LastSeen(earlier).value;
        PairOf(world, l, e);
        NextCarry(world.ms, l.at, CarryOf(world, earlier), e.at, DropOf(l, e))
  }

  /** Whether the comparison is put off at the last reading. */
  ghost predicate PutOffAt(run: seq<Sight>) {
    run != [] &&
    var earlier, e := run[..|run| - 1], run[|run| - 1];
    if e.Failed? then PutOffAt(earlier)
    else if LastSeen(earlier).None? then false
    else
      var l := LastSeen(earlier).value;
      PutOff(l.at, PutOffAt(earlier), e.at, DropOf(l, e), DeltaOf(l, e))
  }

  /** What the last reading's interval adds to the level. */
  ghost function GainAt(world: World, run: seq<Sight>): int
    requires Faithful(world, run) && run != []
  {
    var earlier, e := run[..|run| - 1], run[|run| - 1];
    if e.Failed? || LastSeen(earlier).None? then 0
    else
      var l := LastSeen(earlier).value;
      PairOf(world, l, e);
      GainOf(world.ms, FirstSeen(earlier).value.at, l.at, CarryOf(world, earlier), e.at, DropOf(l, e), Positive(-DeltaOf(l, e)))
  }

  /** What all intervals so far have added. */
  ghost function Gained(world: World, run: seq<Sight>): int
    requires Faithful(world, run)
  {
    if run == [] then 0 else Gained(world, run[..|run| - 1]) + GainAt(world, run)
  }

  /** What they had added at the last reading whose comparison was made. */
  ghost function Anchor(world: World, run: seq<Sight>): int
    requires Faithful(world, run)
  {
    if run == [] then 0
    else if run[|run| - 1].Failed? || PutOffAt(run) then Anchor(world, run[..|run| - 1])
    else Gained(world, run)
  }

  /** The level of the first reading. */
  ghost function FirstLevel(run: seq<Sight>): int
    requires LastSeen(run).Some?
  {
    FirstSeen(run).value.sample.totalSats
  }

  // ---- one sample ----

  ghost predicate NoOverlap(r: Option<Rebalance>) {
    RebalanceDeferred(r) ==> r.value.attributionDeferred.value.overrideId.None?
  }

  /** With no withdrawals and no overlaps, both accountings are the ordinary rebalance one. */
  lemma PlainAccounts(b: Option<Checkpoint>, s: Sample)
    requires s.transfers.Some? && s.withdrawals == []
    requires forall row :: row in s.transfers.value ==> row.overridePendingIds == []
    requires b.Some? ==> NoOverlap(b.value.rebalance) && M.NoWithdrawals(b.value.withdrawals)
    requires R.Accounted(b, s.totalSats, s.arkadeSats, s.transfers.value).Ok?
    ensures Account(b, s).Some?
    ensures var r, a := R.Accounted(b, s.totalSats, s.arkadeSats, s.transfers.value).value, Account(b, s).value;
            && a.rebalance == Some(r) && NoOverlap(a.rebalance)
            && M.NoWithdrawals(Some(a.withdrawals))
            && a.withdrawals.comparisonTotalSats == r.comparisonTotalSats
            && (b.Some? ==> a.previousComparison == D.Comparison(b.value))
  {
    hide R.Attributed, R.Remaining, R.FeesOfDone, R.RemainingSats, R.AmbiguousRise, R.MayResolve;
    var rows := s.transfers.value;
    assert R.FindMarker(R.PriorRebalance(b), rows).None?;
    assert R.AccountDeferredRebalances(b, s.totalSats, rows, s.startedAt).None?;
    M.PlainWithdrawals(b, s, AccountRebalance(b, s).value, rows);
    NothingToExplain(b, s, AccountRebalance(b, s).value, rows);
  }

  lemma NothingToExplain(b: Option<Checkpoint>, s: Sample, r: Option<Rebalance>, rows: seq<Transfer>)
    requires b.Some? ==> M.NoWithdrawals(b.value.withdrawals)
    ensures var w := W.Accounted(b, s.totalSats, s.arkadeSats, r, rows, [], s.history);
            w.Ok? && w.value.explainedDebitSats == 0
            && (b.Some? ==> w.value.previousComparisonSats == D.Comparison(b.value))
  {
    var g := W.Gather(b, s.arkadeSats, r, rows, W.Tracked(b, []).value);
    assert g.live == [] && g.reserved.ids == [];
  }

  /** What assembling keeps of the two accountings. */
  lemma AssembledState(b: Option<Checkpoint>, s: Sample, id: nat)
    requires Account(b, s).Some? && Account(b, s).value.rebalance.Some?
    ensures Record(b, s, id).Some?
    ensures var a, c := Account(b, s).value, Record(b, s, id).value;
            && c.arkadeSats == s.arkadeSats && c.totalSats == s.totalSats
            && c.rebalance.Some? && c.withdrawals.Some?
            && c.rebalance.value.(attributionDeferred := None) == a.rebalance.value.(attributionDeferred := None)
            && RebalanceDeferred(c.rebalance) == RebalanceDeferred(a.rebalance)
            && (RebalanceDeferred(c.rebalance) ==>
                  var d, e := c.rebalance.value.attributionDeferred.value, a.rebalance.value.attributionDeferred.value;
                  d.anchorComparisonTotalSats == e.anchorComparisonTotalSats && d.overrideId == e.overrideId)
            && c.withdrawals.value.(deferred := None) == a.withdrawals.(deferred := None)
            && WithdrawalDeferred(c.withdrawals) == WithdrawalDeferred(Some(a.withdrawals))
  {
    hide Account, Drops, Changes, BackRows, Capped, OpenRows;
  }

  lemma {:induction false} DropsOfBtc(changes: seq<Change>, btcDeferred: bool, uncertain: nat)
    ensures (exists d :: d in Drops(changes, btcDeferred, uncertain) && d.asset == Btc) <==>
            !btcDeferred && exists c :: c in changes && c.asset == Btc && c.after < c.before
  {
    if changes != [] {
      var n := |changes| - 1;
      DropsOfBtc(changes[..n], btcDeferred, uncertain);
      assert changes == changes[..n] + [changes[n]];
    }
  }

  /** BTC is reported lower exactly when its comparison is free and fell. */
  lemma BtcReported(b: Checkpoint, s: Sample, id: nat)
    requires Account(Some(b), s).Some?
    ensures var a, c := Account(Some(b), s).value, Record(Some(b), s, id).value;
            HasBtcDrop(c) <==>
            !BtcDeferred(a.rebalance, Some(a.withdrawals)) && a.withdrawals.comparisonTotalSats < a.previousComparison
  {
    hide Account, BackRows, Capped, OpenRows, Drops;
    var a := Account(Some(b), s).value;
    var changes := Changes(b, a.previousComparison, a.withdrawals.comparisonTotalSats, s.assets);
    DropsOfBtc(changes, BtcDeferred(a.rebalance, Some(a.withdrawals)), UncertainAllowance(b.rebalance));
    assert changes[0] == Change(Btc, a.previousComparison, a.withdrawals.comparisonTotalSats);
    assert forall i :: 1 <= i < |changes| ==> changes[i].asset != Btc;
  }

  // ---- one recorded sample ----

  /** What every recorded checkpoint of such a run is, whatever its journal. */
  ghost predicate PlainState(c: Checkpoint) {
    c.rebalance.Some? && NoOverlap(c.rebalance) && M.NoWithdrawals(c.withdrawals)
    && D.Comparison(c) == c.rebalance.value.comparisonTotalSats
  }

  /** Recording keeps the accounting of a plain sample. */
  lemma PlainRecorded(b: Option<Checkpoint>, s: Sample, id: nat)
    requires s.transfers.Some? && s.withdrawals == []
    requires forall row :: row in s.transfers.value ==> row.overridePendingIds == []
    requires b.Some? ==> PlainState(b.value)
    requires R.Accounted(b, s.totalSats, s.arkadeSats, s.transfers.value).Ok?
    ensures Record(b, s, id).Some?
    ensures var r, c := R.Accounted(b, s.totalSats, s.arkadeSats, s.transfers.value).value, Record(b, s, id).value;
            && PlainState(c) && c.arkadeSats == s.arkadeSats && c.totalSats == s.totalSats
            && SameAccounting(r, c.rebalance.value)
            && (b.Some? ==> (HasBtcDrop(c) <==> r.attributionDeferred.None? && D.Comparison(c) < D.Comparison(b.value)))
  {
    hide Account, Record, R.Accounted, HasBtcDrop;
    PlainAccounts(b, s);
    AssembledState(b, s, id);
    if b.Some? { BtcReported(b.value, s, id); }
  }

  /** Equal but for the rows a deferral holds. */
  ghost predicate SameAccounting(r: Rebalance, c: Rebalance) {
    && r.(attributionDeferred := None) == c.(attributionDeferred := None)
    && r.attributionDeferred.Some? == c.attributionDeferred.Some?
    && (r.attributionDeferred.Some? ==>
          c.attributionDeferred.value.anchorComparisonTotalSats == r.attributionDeferred.value.anchorComparisonTotalSats)
  }

  // ---- the first reading ----

  /** Everything in flight at the first reading counts as seen already; nothing else is followed. */
  lemma {:induction false} FirstAdmitted(a: R.Attribution, ms: seq<Move>, p: Progress, from: nat, n: nat)
    requires InRange(ms, p) && from <= p.done && n <= p.done - from
    ensures R.AdmitAll(None, a, Journal(ms, p, from)[..n]) == a
  {
    if n > 0 {
      var rows := Journal(ms, p, from);
      assert rows[..n][..n - 1] == rows[..n - 1] && rows[n - 1] == DoneRow(ms[from + n - 1]);
      FirstAdmitted(a, ms, p, from, n - 1);
    }
  }

  lemma FirstPending(ms: seq<Move>, p: Progress, from: nat, a: R.Attribution)
    requires SoundMoves(ms) && InRange(ms, p) && from <= p.done && a.pending == []
    ensures R.AdmitAll(None, a, Journal(ms, p, from)) ==
            a.(pending := if p.phase == Idle then [] else [Held(ms[p.done].id, ms[p.done].chargedAt, true, 0, 0)])
  {
    var rows, n := Journal(ms, p, from), p.done - from;
    FirstAdmitted(a, ms, p, from, n);
    if p.phase == Idle {
      assert rows[..n] == rows;
    } else {
      assert rows[..|rows| - 1] == rows[..n];
      assert a.pending + [Held(ms[p.done].id, ms[p.done].chargedAt, true, 0, 0)] == [Held(ms[p.done].id, ms[p.done].chargedAt, true, 0, 0)];
    }
  }

  function FirstCarry(p: Progress): Carry {
    if p.phase == Idle then NOTHING else Carry(true, 0)
  }

  lemma FirstAccounted(world: World, e: Sight)
    requires e.Seen? && True(world, e)
    ensures var r := R.Accounted(None, e.sample.totalSats, e.sample.arkadeSats, e.sample.transfers.value);
            && r.Ok? && r.value.version2 && r.value.seenIds == IdsOf(e.sample.transfers.value)
            && Awaits(world.ms, e.at, FirstCarry(e.at), r.value.pending, false) && r.value.attributionDeferred.None?
            && r.value.comparisonTotalSats == e.sample.totalSats && r.value.feeAllowanceUsedSats == 0
  {
    hide Journal, R.Remaining, R.FeesOfDone, R.RemainingSats, R.AdmitAll, R.ObserveUpTo, R.FirstMissing, R.NextDeferral;
    var rows, start := e.sample.transfers.value, R.Start(None, e.sample.totalSats, e.sample.arkadeSats);
    FirstPending(world.ms, e.at, e.listedFrom, start);
    var a := R.AdmitAll(None, start, rows);
    ObservedNone(rows, a);
    NoneMissing(rows);
    SettleFew(rows, a.pending);
    hide Keep, DoneFee;
    if e.at.phase != Idle {
      KeptInFlight(world.ms, e.at, e.listedFrom, a.pending[0]);
      OneInFlight(a.pending[0]);
    } else {
      OneInFlight(Held(0, 0, false, 0, 0));
    }
    NeverPutOff(e.sample.totalSats, e.sample.arkadeSats, a.pending, R.Remaining(rows, a.pending));
  }

  lemma ObservedNone(rows: seq<Transfer>, a: R.Attribution)
    requires |a.pending| <= 1 && forall h :: h in a.pending ==> h.debitObserved
    ensures R.ObserveUpTo(rows, a, |a.pending|) == a
  {
    assert R.ObserveUpTo(rows, a, 0) == a;
  }

  lemma NoneMissing(rows: seq<Transfer>)
    ensures R.FirstMissing(rows, R.HeldIds(R.PriorPending(None))).None?
  {
  }

  lemma NeverPutOff(totalSats: nat, arkadeSats: nat, observed: seq<Held>, remaining: seq<Held>)
    ensures R.NextDeferral(None, totalSats, arkadeSats, observed, remaining).None? && !R.MayResolve(None, remaining)
  {
  }

  lemma FirstRecorded(world: World, e: Sight)
    requires e.Seen? && True(world, e)
    ensures Record(None, e.sample, e.id).Some?
    ensures var c := Record(None, e.sample, e.id).value;
            && PlainState(c) && c.totalSats == e.sample.totalSats && c.arkadeSats == e.sample.arkadeSats
            && !HasBtcDrop(c) && !RebalanceDeferred(c.rebalance)
            && Settling(world.ms, world.arkade0, world.total0, e.at, FirstCarry(e.at), e.listedFrom, c)
            && c.rebalance.value.feeAllowanceUsedSats == 0
            && D.Comparison(c) == e.sample.totalSats
  {
    hide R.Accounted, Reads, SoundMoves, Account, Awaits, Journal;
    FirstAccounted(world, e);
    JournalPlain(world, e);
    PlainRecorded(None, e.sample, e.id);
  }

  lemma JournalPlain(world: World, e: Sight)
    requires e.Seen? && True(world, e)
    ensures forall row :: row in e.sample.transfers.value ==> row.overridePendingIds == []
  {
    var rows := e.sample.transfers.value;
    forall row | row in rows ensures row.overridePendingIds == [] {
      var k :| 0 <= k < |rows| && rows[k] == row;
    }
  }

  lemma SameOutcome(ms: seq<Move>, p: Progress, carry: Carry, b: Rebalance, q: Progress, listedFrom: nat, drop: nat, delta: int,
                    totalSats: nat, r: Rebalance, c: Rebalance)
    requires Known(ms, p, q) && listedFrom <= q.done && WholeUpTo(p, q) <= |ms|
    requires Outcome(ms, p, carry, b, q, listedFrom, drop, delta, totalSats, r) && SameAccounting(r, c)
    ensures Outcome(ms, p, carry, b, q, listedFrom, drop, delta, totalSats, c)
  {
    hide Awaits, Journal, NextCarry, Excused;
  }

  /** From one reading to the next. */
  lemma IntervalRecorded(world: World, l: Sight, carry: Carry, b: Checkpoint, e: Sight)
    requires Pair(world, l, e)
    requires Settling(world.ms, world.arkade0, world.total0, l.at, carry, l.listedFrom, b)
    requires PlainState(b) && b.totalSats == l.sample.totalSats && b.arkadeSats == l.sample.arkadeSats
    ensures Record(Some(b), e.sample, e.id).Some?
    ensures var c := Record(Some(b), e.sample, e.id).value;
            && PlainState(c) && c.totalSats == e.sample.totalSats && c.arkadeSats == e.sample.arkadeSats
            && Settling(world.ms, world.arkade0, world.total0, e.at, NextCarry(world.ms, l.at, carry, e.at, DropOf(l, e)), e.listedFrom, c)
            && c.rebalance.value.feeAllowanceUsedSats == b.rebalance.value.feeAllowanceUsedSats
               + Excused(world.ms, l.at, carry, e.at, DropOf(l, e), Positive(-DeltaOf(l, e)))
            && RebalanceDeferred(c.rebalance) == PutOff(l.at, RebalanceDeferred(b.rebalance), e.at, DropOf(l, e), DeltaOf(l, e))
            && (RebalanceDeferred(c.rebalance) ==> D.Comparison(c) == D.Comparison(b))
            && (HasBtcDrop(c) <==> !RebalanceDeferred(c.rebalance) && D.Comparison(c) < D.Comparison(b))
  {
    hide Record, R.Accounted, Settling, Outcome, Reads, HasBtcDrop, NotBefore, SoundMoves, Excused, NextCarry, PutOff;
    IntervalOutcome(world.ms, world.arkade0, world.total0, l.at, carry, l.listedFrom, b, e.at, e.listedFrom,
                    e.sample.arkadeSats, e.sample.totalSats);
    JournalPlain(world, e);
    PlainRecorded(Some(b), e.sample, e.id);
    var c := Record(Some(b), e.sample, e.id).value;
    var r := R.Accounted(Some(b), e.sample.totalSats, e.sample.arkadeSats, e.sample.transfers.value).value;
    SameOutcome(world.ms, l.at, carry, b.rebalance.value, e.at, e.listedFrom, DropOf(l, e), DeltaOf(l, e),
                e.sample.totalSats, r, c.rebalance.value);
    OutcomeSays(world.ms, l.at, carry, b.rebalance.value, e.at, e.listedFrom, DropOf(l, e), DeltaOf(l, e),
                e.sample.totalSats, c.rebalance.value);
    NextStart(world.ms, world.arkade0, world.total0, l.at, carry, b.rebalance.value, e.at, e.listedFrom, DropOf(l, e), DeltaOf(l, e), c);
  }

  lemma OutcomeSays(ms: seq<Move>, p: Progress, carry: Carry, b: Rebalance, q: Progress, listedFrom: nat, drop: nat, delta: int,
                    totalSats: nat, r: Rebalance)
    requires Known(ms, p, q) && listedFrom <= q.done && WholeUpTo(p, q) <= |ms|
    requires Outcome(ms, p, carry, b, q, listedFrom, drop, delta, totalSats, r)
    ensures r.feeAllowanceUsedSats == b.feeAllowanceUsedSats + Excused(ms, p, carry, q, drop, Positive(-delta))
    ensures r.attributionDeferred.Some? == PutOff(p, b.attributionDeferred.Some?, q, drop, delta)
    ensures r.attributionDeferred.Some? ==> r.comparisonTotalSats == b.comparisonTotalSats
  {
    hide Awaits, Journal, NextCarry, Excused, PutOff;
  }

  // ---- the run ----

  /** The total with the fees excused and what is in flight, less a credit that came while its move was. */
  ghost function Book(world: World, first: Progress, e: Sight, carry: Carry, b: Checkpoint): int
    requires e.Seen? && InRange(world.ms, e.at) && b.rebalance.Some?
  {
    b.totalSats + b.rebalance.value.feeAllowanceUsedSats + carry.share - CreditAhead(world.ms, first, e.at)
  }

  /** What holds of the last recorded checkpoint of such a run. */
  ghost predicate Level(world: World, run: seq<Sight>, b: Option<Checkpoint>)
    requires Faithful(world, run)
  {
    match LastSeen(run)
    case None => b.None?
    case Some(e) =>
      && b.Some? && Settling(world.ms, world.arkade0, world.total0, e.at, CarryOf(world, run), e.listedFrom, b.value)
      && b.value.totalSats == e.sample.totalSats && b.value.arkadeSats == e.sample.arkadeSats
      && PlainState(b.value)
      && CarryFits(world.ms, FirstSeen(run).value.at, e.at, CarryOf(world, run))
      && RebalanceDeferred(b.value.rebalance) == PutOffAt(run)
      && Book(world, FirstSeen(run).value.at, e, CarryOf(world, run), b.value) == FirstLevel(run) + Gained(world, run)
      && (!PutOffAt(run) ==> CreditAhead(world.ms, FirstSeen(run).value.at, e.at) == 0)
      && D.Comparison(b.value) == FirstLevel(run) + Anchor(world, run)
  }

  /** The record made of the last sight of a run. */
  ghost function LastEntry(run: seq<Sight>): Entry
    requires run != []
  {
    Replay(InputsOf(run))[|run| - 1]
  }

  ghost function BaselineOf(run: seq<Sight>): Option<Checkpoint> {
    Baseline(Replay(InputsOf(run)))
  }

  lemma RunStep(run: seq<Sight>)
    requires run != []
    ensures var earlier, e := run[..|run| - 1], run[|run| - 1];
            && LastEntry(run) == StepEntry(BaselineOf(earlier), InputOf(e))
            && BaselineOf(run) == if LastEntry(run).Recorded? then Some(LastEntry(run).cp) else BaselineOf(earlier)
  {
    hide Replay, Baseline, StepEntry;
    var n := |run| - 1;
    assert InputsOf(run)[..n] == InputsOf(run[..n]);
    ReplayStep(InputsOf(run));
    BaselineAppend(Replay(InputsOf(run[..n])), StepEntry(BaselineOf(run[..n]), InputOf(run[n])));
  }

  /** Two readings of one run show the debits and the credits that came between them. */
  lemma PairReadings(world: World, l: Sight, e: Sight)
    requires Pair(world, l, e)
    ensures DebitsSeen(l.at) <= DebitsSeen(e.at) <= |world.ms| && CreditsSeen(l.at) <= CreditsSeen(e.at) <= |world.ms|
    ensures DropOf(l, e) == Debits(world.ms, DebitsSeen(l.at), DebitsSeen(e.at))
    ensures DeltaOf(l, e) == Credits(world.ms, CreditsSeen(l.at), CreditsSeen(e.at)) - DropOf(l, e)
  {
    SumsSplit(world.ms, 0, DebitsSeen(l.at), DebitsSeen(e.at));
    SumsSplit(world.ms, 0, CreditsSeen(l.at), CreditsSeen(e.at));
  }

  lemma LevelStep(world: World, run: seq<Sight>, l: Sight, b: Checkpoint, c: Checkpoint)
    requires Faithful(world, run) && run != [] && run[|run| - 1].Seen?
    requires var earlier, e := run[..|run| - 1], run[|run| - 1];
             && LastSeen(earlier) == Some(l) && Level(world, earlier, Some(b)) && Pair(world, l, e)
             && Record(Some(b), e.sample, e.id) == Some(c)
    ensures Level(world, run, Some(c))
    ensures HasBtcDrop(c) <==> !PutOffAt(run) && Gained(world, run) < Anchor(world, run[..|run| - 1])
  {
    hide Record, Settling, HasBtcDrop, Reads, NextCarry, Excused, SoundMoves, GainOf, PutOff, D.Comparison, Debits, Credits, CreditAhead, CarryFits;
    var earlier, e := run[..|run| - 1], run[|run| - 1];
    var carry, first := CarryOf(world, earlier), FirstSeen(earlier).value.at;
    IntervalRecorded(world, l, carry, b, e);
    PairReadings(world, l, e);
    IntervalGain(world.ms, first, l.at, carry, e.at, DropOf(l, e), DeltaOf(l, e));
    NextFits(world.ms, first, l.at, carry, e.at, DropOf(l, e));
    if !PutOffAt(run) {
      NotPutOff(l.at, PutOffAt(earlier), e.at, DropOf(l, e), DeltaOf(l, e));
      if e.at.phase == Idle { NotAhead(world.ms, first, e.at); }
      else { FreeNotAhead(world.ms, first, l.at, e.at, DropOf(l, e), DeltaOf(l, e)); }
      FreeLevel(world, e, CarryOf(world, run), c);
    }
  }

  lemma NotPutOff(p: Progress, was: bool, q: Progress, drop: nat, delta: int)
    requires !PutOff(p, was, q, drop, delta)
    ensures q.phase != Idle ==> !was && !PutOff(p, false, q, drop, delta)
  {
  }

  lemma NotAhead(ms: seq<Move>, first: Progress, p: Progress)
    requires p.phase == Idle
    ensures CreditAhead(ms, first, p) == 0
  {
  }

  lemma FreeLevel(world: World, e: Sight, carry: Carry, c: Checkpoint)
    requires e.Seen? && Settling(world.ms, world.arkade0, world.total0, e.at, carry, e.listedFrom, c) && PlainState(c)
    ensures !RebalanceDeferred(c.rebalance) ==>
              D.Comparison(c) == c.totalSats + c.rebalance.value.feeAllowanceUsedSats + carry.share
  {
    hide Reads, Awaits, Journal;
  }

  lemma {:induction false} RunLevel(world: World, run: seq<Sight>)
    requires Faithful(world, run)
    ensures Level(world, run, BaselineOf(run))
    ensures run != [] && run[|run| - 1].Seen? ==>
              && LastEntry(run).Recorded? && BaselineOf(run) == Some(LastEntry(run).cp)
              && (HasBtcDrop(LastEntry(run).cp) <==>
                    LastSeen(run[..|run| - 1]).Some? && !PutOffAt(run) && Gained(world, run) < Anchor(world, run[..|run| - 1]))
  {
    hide Replay, Baseline, Record, Settling, Reads, SoundMoves, HasBtcDrop, NotBefore, Journal, D.Comparison, NextCarry, GainOf, PutOff,
         CreditAhead, CarryFits;
    if run == [] {
      assert InputsOf(run) == [];
      NoRun();
    } else {
      var earlier, e := run[..|run| - 1], run[|run| - 1];
      RunLevel(world, earlier);
      RunStep(run);
      if e.Seen? {
        match LastSeen(earlier)
        case None =>
          FirstRecorded(world, e);
          FirstFits(world, e);
          NothingGained(world, earlier);
        case Some(l) =>
          PairOf(world, l, e);
          IntervalRecorded(world, l, CarryOf(world, earlier), BaselineOf(earlier).value, e);
          LevelStep(world, run, l, BaselineOf(earlier).value, LastEntry(run).cp);
      }
    }
  }

  lemma FirstFits(world: World, e: Sight)
    requires e.Seen? && True(world, e)
    ensures CarryFits(world.ms, e.at, e.at, FirstCarry(e.at)) && CreditAhead(world.ms, e.at, e.at) == 0
  {
  }

  lemma {:induction false} NothingGained(world: World, run: seq<Sight>)
    requires Faithful(world, run) && LastSeen(run).None?
    ensures Gained(world, run) == 0 && Anchor(world, run) == 0 && !PutOffAt(run)
  {
    if run != [] { NothingGained(world, run[..|run| - 1]); }
  }

  lemma NoRun()
    ensures Baseline(Replay([])) == None
  {
  }

  // ---- what follows ----

  /**
   * A free comparison is the first level with what every interval gained: shares below their
   * credits raise it, fees without room and debits left to nobody lower it, and nothing else
   * moves it. Whether it is free, the readings and the journal decide.
   */
  lemma LevelIsExact(world: World, run: seq<Sight>)
    requires Faithful(world, run) && run != [] && run[|run| - 1].Seen?
    ensures LastEntry(run).Recorded?
    ensures var c := LastEntry(run).cp;
            && (RebalanceDeferred(c.rebalance) <==> PutOffAt(run))
            && D.Comparison(c) == FirstLevel(run) + (if PutOffAt(run) then Anchor(world, run[..|run| - 1]) else Gained(world, run))
  {
    hide Replay, Baseline, Settling, Reads, SoundMoves, Journal, D.Comparison, PlainState, CarryOf, Gained, CarryFits, CreditAhead;
    RunLevel(world, run);
  }

  /**
   * A reading reports BTC lower exactly when its comparison is free and the gains since the
   * last comparison made are negative.
   */
  lemma AlarmOnlyWhenShort(world: World, run: seq<Sight>)
    requires Faithful(world, run) && run != [] && run[|run| - 1].Seen? && LastSeen(run[..|run| - 1]).Some?
    ensures LastEntry(run).Recorded?
    ensures HasBtcDrop(LastEntry(run).cp) <==> !PutOffAt(run) && Gained(world, run) < Anchor(world, run[..|run| - 1])
  {
    hide Replay, Baseline, Settling, Reads, SoundMoves, Journal, D.Comparison, PlainState, CarryOf, Gained, Anchor, HasBtcDrop, PutOffAt, Level;
    RunLevel(world, run);
  }

  lemma StateFits(world: World, run: seq<Sight>)
    requires Faithful(world, run) && LastSeen(run).Some?
    ensures CarryFits(world.ms, FirstSeen(run).value.at, LastSeen(run).value.at, CarryOf(world, run))
  {
    hide Replay, Baseline, Settling, Reads, SoundMoves, Journal, D.Comparison, PlainState, CarryOf, Gained, Anchor, CarryFits, CreditAhead;
    RunLevel(world, run);
  }

  /** What the last interval left to nobody. */
  ghost function LostAt(world: World, run: seq<Sight>): nat
    requires Faithful(world, run) && run != []
  {
    var earlier, e := run[..|run| - 1], run[|run| - 1];
    if e.Failed? || LastSeen(earlier).None? then 0
    else
      var l := LastSeen(earlier).value;
      PairOf(world, l, e);
      Lost(world.ms, l.at, CarryOf(world, earlier), e.at, DropOf(l, e))
  }

  /** Only a run that began with a transfer charged and not yet debited ever leaves a debit to nobody. */
  lemma LostOnlyFromCharged(world: World, run: seq<Sight>)
    requires Faithful(world, run) && run != []
    ensures LostAt(world, run) > 0 ==> FirstSeen(run).value.at.phase == Charged
  {
    hide Reads, SoundMoves, Journal, CarryOf, Lost, CarryFits;
    var earlier, e := run[..|run| - 1], run[|run| - 1];
    if e.Seen? && LastSeen(earlier).Some? {
      var l := LastSeen(earlier).value;
      PairOf(world, l, e);
      PairReadings(world, l, e);
      StateFits(world, earlier);
      LostFrom(world.ms, FirstSeen(earlier).value.at, l.at, CarryOf(world, earlier), e.at, DropOf(l, e));
    }
  }

  /** Every interval so far was calm. */
  ghost predicate AllCalm(world: World, run: seq<Sight>)
    requires Faithful(world, run)
  {
    run == [] ||
    var earlier, e := run[..|run| - 1], run[|run| - 1];
    && AllCalm(world, earlier)
    && (e.Seen? && LastSeen(earlier).Some? ==>
          var l := LastSeen(earlier).value;
          PairOf(world, l, e);
          Calm(world.ms, l.at, e.at, DropOf(l, e), Positive(-DeltaOf(l, e))))
  }

  lemma {:induction false} CalmGains(world: World, run: seq<Sight>)
    requires Faithful(world, run) && AllCalm(world, run)
    requires FirstSeen(run).Some? ==> FirstSeen(run).value.at.phase != Charged
    ensures Gained(world, run) >= Anchor(world, run) >= 0
    ensures run != [] ==> GainAt(world, run) >= 0 && Gained(world, run) >= Anchor(world, run[..|run| - 1])
  {
    hide Reads, SoundMoves, Journal, CarryOf, Lost, CarryFits, GainOf, Calm;
    if run != [] {
      var earlier, e := run[..|run| - 1], run[|run| - 1];
      CalmGains(world, earlier);
      if e.Seen? && LastSeen(earlier).Some? {
        var l := LastSeen(earlier).value;
        PairOf(world, l, e);
        PairReadings(world, l, e);
        StateFits(world, earlier);
        LostOnlyFromCharged(world, run);
        CalmGain(world.ms, FirstSeen(earlier).value.at, l.at, CarryOf(world, earlier), e.at, DropOf(l, e), DeltaOf(l, e));
      }
    }
  }

  /**
   * No reading reports BTC lower, nor is it ever compared below its first level, in a run that
   * did not begin with a transfer charged and not yet debited, if in every interval nothing both
   * came and went, or nothing was in flight at either end, or the decrease covers the fees.
   */
  lemma NoAlarm(world: World, run: seq<Sight>)
    requires Faithful(world, run) && run != [] && run[|run| - 1].Seen?
    requires AllCalm(world, run) && FirstSeen(run).value.at.phase != Charged
    ensures LastEntry(run).Recorded?
    ensures D.Comparison(LastEntry(run).cp) >= FirstLevel(run) && !HasBtcDrop(LastEntry(run).cp)
  {
    hide Replay, Baseline, Settling, Reads, SoundMoves, Journal, D.Comparison, PlainState, CarryOf, Gained, Anchor, HasBtcDrop, PutOffAt,
         AllCalm, GainAt;
    CalmGains(world, run);
    CalmEarlier(world, run);
    LevelIsExact(world, run);
    RunLevel(world, run);
  }

  lemma CalmEarlier(world: World, run: seq<Sight>)
    requires Faithful(world, run) && run != [] && AllCalm(world, run)
    requires FirstSeen(run).Some? && FirstSeen(run).value.at.phase != Charged
    ensures Anchor(world, run[..|run| - 1]) >= 0
  {
    hide Reads, SoundMoves, Journal, CarryOf, GainAt, Calm, Anchor, Gained;
    CalmGains(world, run[..|run| - 1]);
  }

  // ---- runs whose debits can be told apart ----

  /** The run begins with nothing in flight, no move gains money, and every interval's debits can be told apart. */
  ghost predicate Tellable(world: World, run: seq<Sight>)
    requires Faithful(world, run)
  {
    Costly(world.ms) &&
    (run == [] ||
     var earlier, e := run[..|run| - 1], run[|run| - 1];
     && Tellable(world, earlier)
     && (e.Seen? ==>
           if LastSeen(earlier).None? then e.at.phase == Idle
           else DebitsTellable(world.ms, LastSeen(earlier).value.at, e.at)))
  }

  /** The fees no interval so far had room for. */
  ghost function Unroomed(world: World, run: seq<Sight>): nat
    requires Faithful(world, run)
  {
    if run == [] then 0
    else
      var earlier, e := run[..|run| - 1], run[|run| - 1];
      Unroomed(world, earlier) +
      if e.Failed? || LastSeen(earlier).None? then 0
      else
        var l := LastSeen(earlier).value;
        PairOf(world, l, e);
        Shortfall(world.ms, l.at, e.at, Positive(-DeltaOf(l, e)))
  }

  /** The level of such a run is the first less exactly the fees really paid that no interval had room for. */
  lemma {:induction false} TellableLevel(world: World, run: seq<Sight>)
    requires Faithful(world, run) && Tellable(world, run)
    ensures Gained(world, run) == -(Unroomed(world, run) as int)
    ensures LastSeen(run).Some? ==>
              Exact(world.ms, LastSeen(run).value.at, CarryOf(world, run)) && FirstSeen(run).value.at.phase == Idle
  {
    hide Reads, Journal, GainOf, Shortfall, DebitsTellable, Exact, NextCarry, Follows;
    if run != [] {
      var earlier, e := run[..|run| - 1], run[|run| - 1];
      TellableLevel(world, earlier);
      if e.Seen? {
        match LastSeen(earlier)
        case None => IdleExact(world.ms, e.at);
        case Some(l) =>
          PairOf(world, l, e);
          PairReadings(world, l, e);
          TellableGain(world.ms, FirstSeen(earlier).value.at, l.at, CarryOf(world, earlier), e.at, DropOf(l, e), Positive(-DeltaOf(l, e)));
      }
    }
  }

  lemma IdleExact(ms: seq<Move>, p: Progress)
    requires InRange(ms, p) && p.phase == Idle
    ensures Exact(ms, p, NOTHING)
  {
  }

  // ---- runs of two readings ----

  lemma TwoSights(world: World, f: Sight, e: Sight)
    requires f.Seen? && e.Seen? && True(world, f) && True(world, e) && Follows(world, Some(f), e)
    ensures Faithful(world, [f, e]) && LastSeen([f]) == FirstSeen([f]) == Some(f) && [f, e][..1] == [f]
    ensures Faithful(world, [f]) && CarryOf(world, [f]) == FirstCarry(f.at) && !PutOffAt([f])
    ensures Gained(world, [f]) == 0 && Anchor(world, [f]) == 0
    ensures Pair(world, f, e)
    ensures PutOffAt([f, e]) == PutOff(f.at, false, e.at, DropOf(f, e), DeltaOf(f, e))
    ensures Gained(world, [f, e]) == GainOf(world.ms, f.at, f.at, FirstCarry(f.at), e.at, DropOf(f, e), Positive(-DeltaOf(f, e)))
  {
    hide True, PutOff, GainOf, Pair;
    PairOf(world, f, e);
    assert [f, e][..1] == [f] && [f][..0] == [] && LastSeen([]) == None && FirstSeen([]) == None;
    assert Faithful(world, []) && Gained(world, []) == 0;
    assert Faithful(world, [f]);
  }

  /** The second reading of a run still shows the same move, or that it is over and nothing new has begun. */
  ghost predicate SameMove(f: Sight, e: Sight)
    requires f.Seen? && e.Seen?
  {
    e.at.done == f.at.done || (f.at.phase != Idle && e.at.done == f.at.done + 1 && e.at.phase == Idle)
  }

  /**
   * Of all ways a run may begin, only a transfer found charged and not yet debited alarms by
   * itself: at its debit, or at its end if it cost anything.
   */
  lemma OnlyAChargedStartAlarms(world: World, f: Sight, e: Sight)
    requires f.Seen? && e.Seen? && True(world, f) && True(world, e) && Follows(world, Some(f), e) && SameMove(f, e)
    ensures Faithful(world, [f, e]) && LastEntry([f, e]).Recorded?
    ensures HasBtcDrop(LastEntry([f, e]).cp) <==>
            && f.at.phase == Charged
            && (if e.at.done == f.at.done then e.at.phase == Debited && world.ms[f.at.done].debit > 0
                else world.ms[f.at.done].debit > world.ms[f.at.done].credit)
  {
    hide Faithful, HasBtcDrop, LastEntry, PutOffAt, Gained, Anchor, LastSeen, FirstSeen, CarryOf, Reads;
    TwoSights(world, f, e);
    AlarmOnlyWhenShort(world, [f, e]);
    StartGain(world, f, e);
  }

  lemma StartGain(world: World, f: Sight, e: Sight)
    requires f.Seen? && e.Seen? && True(world, f) && True(world, e) && Follows(world, Some(f), e) && SameMove(f, e)
    ensures Pair(world, f, e)
    ensures !PutOff(f.at, false, e.at, DropOf(f, e), DeltaOf(f, e))
            && GainOf(world.ms, f.at, f.at, FirstCarry(f.at), e.at, DropOf(f, e), Positive(-DeltaOf(f, e))) < 0 <==>
            && f.at.phase == Charged
            && (if e.at.done == f.at.done then e.at.phase == Debited && world.ms[f.at.done].debit > 0
                else world.ms[f.at.done].debit > world.ms[f.at.done].credit)
  {
    hide Reads, Journal, Debits, Credits;
    PairOf(world, f, e);
    PairReadings(world, f, e);
    OneDebit(world.ms, f.at.done);
    OneCredit(world.ms, f.at.done);
    if f.at.phase != Idle {
      OneDebit(world.ms, f.at.done + 1);
      OneCredit(world.ms, f.at.done + 1);
    }
    if f.at.done < |world.ms| { assert Sound(world.ms[f.at.done]); }
  }

  // ---- false alarms ----

  /** A reading of a world, with its journal listing every move. */
  function SightAt(world: World, id: nat, arkade: nat, total: nat, at: Progress): Sight
    requires at.done <= |world.ms| && (at.phase != Idle ==> at.done < |world.ms|)
  {
    Seen(id, Sample(7, arkade, [], total, Some(Journal(world.ms, at, 0)), [], []), at, 0)
  }

  lemma SightTrue(world: World, id: nat, arkade: nat, total: nat, at: Progress)
    requires SoundMoves(world.ms) && InRange(world.ms, at) && Reads(world.ms, world.arkade0, world.total0, at, arkade, total)
    ensures True(world, SightAt(world, id, arkade, total, at))
  {
  }

  /** One move of 100 for 90. */
  ghost predicate OneMove(world: World) {
    world.arkade0 == 1000 && world.total0 == 1000 && |world.ms| == 1 && world.ms[0] == Move(1, 5, 100, 90, 100, 10)
  }

  /** A first reading finds the transfer charged; its debit, shown by the second, is explained by nothing. */
  lemma AChargedStart(world: World)
    requires OneMove(world)
    ensures var run := [SightAt(world, 1, 1000, 1000, Progress(0, Charged, Submitting)),
                        SightAt(world, 2, 900, 900, Progress(0, Debited, Submitting))];
            Faithful(world, run) && LastEntry(run).Recorded? && HasBtcDrop(LastEntry(run).cp)
  {
    hide LastEntry, HasBtcDrop, Faithful, True, Debits, Credits, Journal;
    OneDebit(world.ms, 0);
    OneCredit(world.ms, 0);
    var awaited, gone := Progress(0, Charged, Submitting), Progress(0, Debited, Submitting);
    SightTrue(world, 1, 1000, 1000, awaited);
    SightTrue(world, 2, 900, 900, gone);
    OnlyAChargedStartAlarms(world, SightAt(world, 1, 1000, 1000, awaited), SightAt(world, 2, 900, 900, gone));
  }

  /** What two readings of a world show. */
  ghost predicate Shows(world: World, f: Sight, e: Sight, drop: nat, delta: int) {
    f.Seen? && e.Seen? && True(world, f) && True(world, e) && Follows(world, Some(f), e) && DropOf(f, e) == drop && DeltaOf(f, e) == delta
  }

  /** What a run has come to, reading by reading. */
  ghost predicate Stands(world: World, run: seq<Sight>, first: Sight, last: Sight, carry: Carry, putOff: bool, gained: int, anchor: int) {
    && Faithful(world, run) && FirstSeen(run) == Some(first) && LastSeen(run) == Some(last) && first.Seen? && last.Seen?
    && CarryOf(world, run) == carry && PutOffAt(run) == putOff
    && Gained(world, run) == gained && Anchor(world, run) == anchor
  }

  lemma StandsFirst(world: World, f: Sight)
    requires f.Seen? && True(world, f)
    ensures Stands(world, [f], f, f, FirstCarry(f.at), false, 0, 0)
  {
    hide True;
    assert [f][..0] == [] && LastSeen([]) == None && FirstSeen([]) == None;
    assert Faithful(world, []) && Gained(world, []) == 0;
  }

  lemma StandsNext(world: World, run: seq<Sight>, first: Sight, l: Sight, carry: Carry, putOff: bool, gained: int, anchor: int, e: Sight)
    requires Stands(world, run, first, l, carry, putOff, gained, anchor)
    requires e.Seen? && True(world, e) && Follows(world, Some(l), e)
    ensures Pair(world, l, e)
    ensures var off := PutOff(l.at, putOff, e.at, DropOf(l, e), DeltaOf(l, e));
            var now := gained + GainOf(world.ms, first.at, l.at, carry, e.at, DropOf(l, e), Positive(-DeltaOf(l, e)));
            && (run + [e])[..|run|] == run
            && Stands(world, run + [e], first, e, NextCarry(world.ms, l.at, carry, e.at, DropOf(l, e)), off, now, if off then anchor else now)
  {
    hide True, Follows, PutOff, GainOf, NextCarry;
    assert (run + [e])[..|run|] == run;
    PairOf(world, l, e);
  }

  lemma NoWhole(ms: seq<Move>, i: nat, drop: nat)
    requires i <= |ms|
    ensures FeesFor(ms, i, i, drop) == 0 && Overs(ms, i, i, drop) == 0 && LeftFor(ms, i, i, drop) == drop
  {
  }

  lemma OneWhole(ms: seq<Move>, i: nat, drop: nat)
    requires i < |ms|
    ensures var share := Min(drop, ms[i].ceiling);
            && FeesFor(ms, i, i + 1, drop) == FeeFor(ms[i], share)
            && Overs(ms, i, i + 1, drop) == Positive(ms[i].credit - share)
            && LeftFor(ms, i, i + 1, drop) == Positive(drop - ms[i].ceiling)
  {
    NoWhole(ms, i, drop);
    assert Ceilings(ms, i, i + 1) == Ceilings(ms, i, i) + ms[i].ceiling;
  }

  /** A move of 100 for 90, then one of 50 for 40. */
  ghost predicate TwoMoves(world: World) {
    && world.arkade0 == 1000 && world.total0 == 1000 && |world.ms| == 2
    && world.ms[0] == Move(1, 5, 100, 90, 100, 10) && world.ms[1] == Move(2, 6, 50, 40, 50, 10)
  }

  /** Nothing moved; then the first debit; then its credit, with the whole second move, in one interval. */
  function Start2(world: World): Sight {
    SightAt(world, 1, 1000, 1000, Progress(0, Idle, Submitting))
  }

  function Left2(world: World): Sight
    requires |world.ms| == 2
  {
    SightAt(world, 2, 900, 900, Progress(0, Debited, TransferState.Pending))
  }

  function Over2(world: World): Sight
    requires |world.ms| == 2
  {
    SightAt(world, 3, 850, 980, Progress(2, Idle, Submitting))
  }

  lemma TwoTrue(world: World)
    requires TwoMoves(world)
    ensures Shows(world, Start2(world), Left2(world), 100, -100) && Shows(world, Left2(world), Over2(world), 50, 80)
  {
    hide Debits, Credits, Journal, True;
    OneDebit(world.ms, 0);
    OneCredit(world.ms, 0);
    assert Debits(world.ms, 0, 2) == 150 && Credits(world.ms, 0, 2) == 130 by { TwoSums(world); }
    SightTrue(world, 1, 1000, 1000, Start2(world).at);
    SightTrue(world, 2, 900, 900, Left2(world).at);
    SightTrue(world, 3, 850, 980, Over2(world).at);
  }

  lemma TwoSums(world: World)
    requires TwoMoves(world)
    ensures Debits(world.ms, 0, 2) == 150 && Credits(world.ms, 0, 2) == 130
  {
    OneDebit(world.ms, 0);
    OneCredit(world.ms, 0);
  }

  /** The credit shown with the whole second move leaves its fee no room. */
  lemma TwoGains(ms: seq<Move>, p: Progress, q: Progress, r: Progress)
    requires |ms| == 2 && ms[0] == Move(1, 5, 100, 90, 100, 10) && ms[1] == Move(2, 6, 50, 40, 50, 10)
    requires p == Progress(0, Idle, Submitting) && q == Progress(0, Debited, TransferState.Pending)
    requires r == Progress(2, Idle, Submitting)
    ensures NextCarry(ms, p, NOTHING, q, 100) == Carry(true, 100) && GainOf(ms, p, p, NOTHING, q, 100, 100) == 0
    ensures !PutOff(p, false, q, 100, -100) && !PutOff(q, false, r, 50, 80)
    ensures GainOf(ms, p, q, Carry(true, 100), r, 50, 0) == -10
  {
    hide FeesFor, Overs, LeftFor;
    NoWhole(ms, 0, 100);
    OneWhole(ms, 1, 50);
  }

  /**
   * A false alarm: nothing but two sound, fully journaled moves, one after the other, and the
   * last reading reports BTC lower, because an earlier credit hid the fee of a whole later move.
   */
  lemma ACreditHidesAFee(world: World)
    requires TwoMoves(world)
    ensures var run := [Start2(world), Left2(world), Over2(world)];
            Faithful(world, run) && LastEntry(run).Recorded? && HasBtcDrop(LastEntry(run).cp)
  {
    hide True, Follows, LastEntry, HasBtcDrop, Journal, Gained, Anchor, PutOffAt, CarryOf, Faithful, LastSeen, FirstSeen,
         NextCarry, GainOf, PutOff, DropOf, DeltaOf;
    var f, l, e := Start2(world), Left2(world), Over2(world);
    TwoTrue(world);
    TwoGains(world.ms, f.at, l.at, e.at);
    StandsFirst(world, f);
    StandsNext(world, [f], f, f, NOTHING, false, 0, 0, l);
    assert [f] + [l] == [f, l];
    StandsNext(world, [f, l], f, l, Carry(true, 100), false, 0, 0, e);
    assert [f, l] + [e] == [f, l, e];
    AlarmOnlyWhenShort(world, [f, l, e]);
  }

  /** A move of 90 for 85 twice, then one of 85 for 80, each authorised for more. */
  ghost predicate ThreeMoves(world: World) {
    && world.arkade0 == 1000 && world.total0 == 1000 && |world.ms| == 3 && world.ms[0] == Move(1, 5, 90, 85, 100, 15)
    && world.ms[1] == Move(2, 6, 90, 85, 100, 15) && world.ms[2] == Move(3, 7, 85, 80, 100, 20)
  }

  /** Nothing moved; the first debit; two moves over and the third debited; all over; and once more. */
  function Crowded3(world: World): (run: seq<Sight>)
    requires |world.ms| == 3
    ensures |run| == 5 && forall e :: e in run ==> e.Seen?
  {
    [SightAt(world, 1, 1000, 1000, Progress(0, Idle, Submitting)), SightAt(world, 2, 910, 910, Progress(0, Debited, Submitting)),
     SightAt(world, 3, 735, 905, Progress(2, Debited, Submitting)), SightAt(world, 4, 735, 985, Progress(3, Idle, Submitting)),
     SightAt(world, 5, 735, 985, Progress(3, Idle, Submitting))]
  }

  lemma ThreeSums(world: World)
    requires ThreeMoves(world)
    ensures Debits(world.ms, 0, 2) == 180 && Debits(world.ms, 0, 3) == 265
    ensures Credits(world.ms, 0, 2) == 170 && Credits(world.ms, 0, 3) == 250
  {
    OneDebit(world.ms, 0);
    OneCredit(world.ms, 0);
    assert Debits(world.ms, 0, 2) == Debits(world.ms, 0, 1) + 90;
    assert Credits(world.ms, 0, 2) == Credits(world.ms, 0, 1) + 85;
  }

  lemma ThreeTrue(world: World)
    requires ThreeMoves(world)
    ensures var run := Crowded3(world);
            && Shows(world, run[0], run[1], 90, -90) && Shows(world, run[1], run[2], 175, -5)
            && Shows(world, run[2], run[3], 0, 80) && Shows(world, run[3], run[4], 0, 0)
  {
    hide Debits, Credits, Journal, True;
    OneDebit(world.ms, 0);
    OneCredit(world.ms, 0);
    ThreeSums(world);
    var run := Crowded3(world);
    SightTrue(world, 1, 1000, 1000, run[0].at);
    SightTrue(world, 2, 910, 910, run[1].at);
    SightTrue(world, 3, 735, 905, run[2].at);
    SightTrue(world, 4, 735, 985, run[3].at);
    SightTrue(world, 5, 735, 985, run[4].at);
  }

  /** The second move takes more than its debit, for an excuse without room; the third is left with less than its own. */
  lemma ThreeGains(ms: seq<Move>, p: Progress, q: Progress, r: Progress, t: Progress)
    requires |ms| == 3 && ms[0] == Move(1, 5, 90, 85, 100, 15) && ms[1] == Move(2, 6, 90, 85, 100, 15)
    requires ms[2] == Move(3, 7, 85, 80, 100, 20)
    requires p == Progress(0, Idle, Submitting) && q == Progress(0, Debited, Submitting)
    requires r == Progress(2, Debited, Submitting) && t == Progress(3, Idle, Submitting)
    ensures NextCarry(ms, p, NOTHING, q, 90) == Carry(true, 90) && GainOf(ms, p, p, NOTHING, q, 90, 90) == 0
    ensures NextCarry(ms, q, Carry(true, 90), r, 175) == Carry(true, 75) && GainOf(ms, p, q, Carry(true, 90), r, 175, 5) == -10
    ensures NextCarry(ms, r, Carry(true, 75), t, 0) == NOTHING && GainOf(ms, p, r, Carry(true, 75), t, 0, 0) == 5
    ensures GainOf(ms, p, t, NOTHING, t, 0, 0) == 0
    ensures !PutOff(p, false, q, 90, -90) && PutOff(q, false, r, 175, -5) && PutOff(r, true, t, 0, 80) && !PutOff(t, true, t, 0, 0)
  {
    hide FeesFor, Overs, LeftFor;
    NoWhole(ms, 0, 90);
    OneWhole(ms, 1, 175);
    NoWhole(ms, 3, 0);
  }

  /**
   * Another: every credit is as quoted and every interval's decrease covers the fees really
   * paid in it, but several debits show at once, and cannot be told apart.
   */
  lemma ManyDebitsHideAFee(world: World)
    requires ThreeMoves(world)
    ensures var run := Crowded3(world); Faithful(world, run) && LastEntry(run).Recorded? && HasBtcDrop(LastEntry(run).cp)
  {
    hide True, Follows, LastEntry, HasBtcDrop, Journal, Gained, Anchor, PutOffAt, CarryOf, Faithful, LastSeen, FirstSeen,
         NextCarry, GainOf, PutOff, DropOf, DeltaOf;
    var run := Crowded3(world);
    ThreeTrue(world);
    ThreeGains(world.ms, run[0].at, run[1].at, run[2].at, run[3].at);
    StandsFirst(world, run[0]);
    assert run[..1] == [run[0]];
    StandsNext(world, run[..1], run[0], run[0], NOTHING, false, 0, 0, run[1]);
    assert run[..1] + [run[1]] == run[..2];
    StandsNext(world, run[..2], run[0], run[1], Carry(true, 90), false, 0, 0, run[2]);
    assert run[..2] + [run[2]] == run[..3];
    StandsNext(world, run[..3], run[0], run[2], Carry(true, 75), true, -10, 0, run[3]);
    assert run[..3] + [run[3]] == run[..4];
    StandsNext(world, run[..4], run[0], run[3], NOTHING, true, -5, 0, run[4]);
    assert run[..4] + [run[4]] == run;
    AlarmOnlyWhenShort(world, run);
  }
}
