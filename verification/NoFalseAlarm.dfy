/**
 * When the balance moves only because tracked rebalances run one after another, what does one
 * sample make of the interval since the last? It divides what Arkade lost among the transfers
 * it has not seen debited, each up to its authorised ceiling, and excuses fees from those
 * shares: the result depends on the readings and the journal alone.
 */
module NoFalseAlarm {
  import opened Util
  import opened CheckpointTypes
  import opened Rebalances

  /** One Arkade-sourced rebalance as it really happens, and what its journal row authorises. */
  datatype Move = Move(id: Id, chargedAt: nat, debit: nat, credit: nat, ceiling: nat, feeCeiling: nat)

  /** No more leaves than was authorised, and no less arrives than was quoted. */
  ghost predicate Sound(m: Move) {
    0 < m.credit && m.debit <= m.ceiling && m.ceiling - m.feeCeiling <= m.credit
  }

  ghost predicate SoundMoves(ms: seq<Move>) {
    (forall i :: 0 <= i < |ms| ==> Sound(ms[i]))
    && forall i, j :: 0 <= i < j < |ms| ==> ms[i].id != ms[j].id
  }

  function Debits(ms: seq<Move>, i: nat, j: nat): nat
    requires i <= j <= |ms|
  {
    if i == j then 0 else Debits(ms, i, j - 1) + ms[j - 1].debit
  }

  function Credits(ms: seq<Move>, i: nat, j: nat): nat
    requires i <= j <= |ms|
  {
    if i == j then 0 else Credits(ms, i, j - 1) + ms[j - 1].credit
  }

  function Ceilings(ms: seq<Move>, i: nat, j: nat): nat
    requires i <= j <= |ms|
  {
    if i == j then 0 else Ceilings(ms, i, j - 1) + ms[j - 1].ceiling
  }

  lemma {:induction false} SumsSplit(ms: seq<Move>, i: nat, j: nat, k: nat)
    requires i <= j <= k <= |ms|
    ensures Debits(ms, i, k) == Debits(ms, i, j) + Debits(ms, j, k)
    ensures Credits(ms, i, k) == Credits(ms, i, j) + Credits(ms, j, k)
  {
    if j < k { SumsSplit(ms, i, j, k - 1); }
  }

  // ---- what a sample sees ----

  /** How far a run has come: moves before `done` are over, move `done` is in `phase`. */
  datatype Progress = Progress(done: nat, phase: Phase, state: TransferState)

  /** Not charged; charged; debit visible; debit and credit visible, but not completed. */
  datatype Phase = Idle | Charged | Debited | Credited

  ghost predicate InRange(ms: seq<Move>, p: Progress) {
    p.done <= |ms| && (p.phase != Idle ==> p.done < |ms|)
    && (p.state == Submitting || p.state == TransferState.Pending || p.state == NeedsReconciliation)
  }

  function DebitsSeen(p: Progress): nat {
    p.done + if p.phase == Debited || p.phase == Credited then 1 else 0
  }

  function CreditsSeen(p: Progress): nat {
    p.done + if p.phase == Credited then 1 else 0
  }

  function Rank(p: Phase): nat {
    match p case Idle => 0 case Charged => 1 case Debited => 2 case Credited => 3
  }

  ghost predicate NotBefore(p: Progress, q: Progress) {
    p.done < q.done || (p.done == q.done && Rank(p.phase) <= Rank(q.phase))
  }

  /** The raw readings, starting from `arkade0` on Arkade and `total0` overall. */
  ghost predicate Reads(ms: seq<Move>, arkade0: nat, total0: nat, p: Progress, arkadeSats: nat, totalSats: nat)
    requires InRange(ms, p)
  {
    arkadeSats == arkade0 - Debits(ms, 0, DebitsSeen(p))
    && totalSats == total0 - Debits(ms, 0, DebitsSeen(p)) + Credits(ms, 0, CreditsSeen(p))
  }

  function DoneRow(m: Move): Transfer {
    Transfer(m.id, Some(m.chargedAt), 0, m.ceiling, m.feeCeiling, Some(m.credit), Completed, None, [])
  }

  function FlightRow(m: Move, state: TransferState): Transfer {
    Transfer(m.id, Some(m.chargedAt), 0, m.ceiling, m.feeCeiling, None, state, None, [])
  }

  /** The journal at `p`, which has stopped listing the finished moves before `from`. */
  function Journal(ms: seq<Move>, p: Progress, from: nat): (rows: seq<Transfer>)
    requires from <= p.done <= |ms| && (p.phase != Idle ==> p.done < |ms|)
    ensures |rows| == p.done - from + (if p.phase == Idle then 0 else 1)
    ensures forall i :: from <= i < p.done ==> rows[i - from] == DoneRow(ms[i])
    ensures p.phase != Idle ==> rows[p.done - from] == FlightRow(ms[p.done], p.state)
  {
    seq(p.done - from, i requires 0 <= i < p.done - from => DoneRow(ms[from + i])) +
    if p.phase == Idle then [] else [FlightRow(ms[p.done], p.state)]
  }

  // ---- how one interval's drop is divided ----

  /** What the move in flight has been given: whether its debit counts as seen, and its share of the drops. */
  datatype Carry = Carry(seen: bool, share: nat)

  const NOTHING := Carry(false, 0)

  /** The first move the journal had not listed yet. */
  function FirstUnseen(p: Progress): nat {
    p.done + if p.phase == Idle then 0 else 1
  }

  /** The moves that both came and went since `p` are those from `FirstUnseen(p)` up to here. */
  function WholeUpTo(p: Progress, q: Progress): (n: nat)
    ensures n >= FirstUnseen(p)
  {
    if FirstUnseen(p) <= q.done then q.done else FirstUnseen(p)
  }

  /** What is left of a drop once the moves before `i` have taken their shares. */
  function LeftFor(ms: seq<Move>, first: nat, i: nat, drop: nat): nat
    requires first <= i <= |ms|
  {
    Positive(drop - Ceilings(ms, first, i))
  }

  function ShareOf(ms: seq<Move>, first: nat, i: nat, drop: nat): nat
    requires first <= i < |ms|
  {
    Min(LeftFor(ms, first, i, drop), ms[i].ceiling)
  }

  /** The fee a finished move may excuse, given its share. */
  function FeeFor(m: Move, share: nat): nat {
    Min(m.feeCeiling, Positive(share - m.credit))
  }

  function FeesFor(ms: seq<Move>, first: nat, i: nat, drop: nat): nat
    requires first <= i <= |ms|
  {
    if i == first then 0 else FeesFor(ms, first, i - 1, drop) + FeeFor(ms[i - 1], ShareOf(ms, first, i - 1, drop))
  }

  ghost predicate Known(ms: seq<Move>, p: Progress, q: Progress) {
    InRange(ms, p) && InRange(ms, q) && NotBefore(p, q)
  }

  /** What the moves that came and went leave of a drop. */
  function LeftOfWhole(ms: seq<Move>, p: Progress, q: Progress, drop: nat): nat
    requires WholeUpTo(p, q) <= |ms|
  {
    LeftFor(ms, FirstUnseen(p), WholeUpTo(p, q), drop)
  }

  /** What a move in flight is given out of what is left. */
  function Given(m: Move, carry: Carry, left: nat): Carry {
    if carry.seen || left == 0 then carry else Carry(true, Min(left, m.ceiling))
  }

  /** What that leaves. */
  function LeftAfter(m: Move, carry: Carry, left: nat): nat {
    if carry.seen then left else Positive(left - m.ceiling)
  }

  /** The move in flight since before, once the interval's drop is divided. */
  function Since(ms: seq<Move>, p: Progress, carry: Carry, left: nat): Carry
    requires p.phase != Idle ==> p.done < |ms|
  {
    if p.phase == Idle then NOTHING else Given(ms[p.done], carry, left)
  }

  function LeftSince(ms: seq<Move>, p: Progress, carry: Carry, left: nat): nat
    requires p.phase != Idle ==> p.done < |ms|
  {
    if p.phase == Idle then left else LeftAfter(ms[p.done], carry, left)
  }

  /** A move in flight was not known of at the last sample. */
  predicate Joins(p: Progress, q: Progress) {
    q.phase != Idle && FirstUnseen(p) <= q.done
  }

  /** What the move in flight now has been given in all. */
  function NextCarry(ms: seq<Move>, p: Progress, carry: Carry, q: Progress, drop: nat): Carry
    requires WholeUpTo(p, q) <= |ms| && (p.phase != Idle ==> p.done < |ms|) && (q.phase != Idle ==> q.done < |ms|)
  {
    var left := LeftOfWhole(ms, p, q, drop);
    if q.phase == Idle then NOTHING
    else if Joins(p, q) then Given(ms[q.done], NOTHING, LeftSince(ms, p, carry, left))
    else Since(ms, p, carry, left)
  }

  /** The fees excused: those of the moves that came and went, as far as the total fell, and that of the move finished. */
  function Excused(ms: seq<Move>, p: Progress, carry: Carry, q: Progress, drop: nat, decrease: nat): nat
    requires WholeUpTo(p, q) <= |ms| && (p.phase != Idle ==> p.done < |ms|)
  {
    Min(decrease, FeesFor(ms, FirstUnseen(p), WholeUpTo(p, q), drop)) +
    if p.phase != Idle && p.done < q.done then FeeFor(ms[p.done], Since(ms, p, carry, LeftOfWhole(ms, p, q, drop)).share) else 0
  }

  /** Comparison is put off from an interval that is ambiguous until nothing has been in flight for two samples. */
  predicate PutOff(p: Progress, wasPutOff: bool, q: Progress, drop: nat, delta: int) {
    if wasPutOff then !(p.phase == Idle && q.phase == Idle)
    else q.phase != Idle && (delta > 0 || drop > Positive(-delta))
  }

  // ---- the state a sample leaves ----

  ghost predicate HeldAs(h: Held, m: Move, carry: Carry) {
    h.id == m.id && h.debitObserved == carry.seen && h.observedDebitSats == carry.share
  }

  ghost predicate Awaits(ms: seq<Move>, p: Progress, carry: Carry, pending: seq<Held>, putOff: bool)
    requires InRange(ms, p)
  {
    if p.phase == Idle then pending == [] && carry == NOTHING
    else
      && |pending| == 1
      && HeldAs(pending[0], ms[p.done], carry)
      && (!carry.seen ==> carry.share == 0)
      && (!putOff ==> pending[0].remainingSats == carry.share)
  }

  /** A free comparison is the total with the fees excused and what is in flight; one put off stays at its anchor. */
  ghost predicate Levelled(carry: Carry, totalSats: nat, r: Rebalance) {
    match r.attributionDeferred
    case None => r.comparisonTotalSats == totalSats + r.feeAllowanceUsedSats + carry.share
    case Some(d) => d.anchorComparisonTotalSats == r.comparisonTotalSats
  }

  /** What a checkpoint at `p` holds, its journal listing the moves from `from` on. */
  ghost predicate Settling(ms: seq<Move>, arkade0: nat, total0: nat, p: Progress, carry: Carry, from: nat, b: Checkpoint) {
    && InRange(ms, p) && from <= p.done
    && Reads(ms, arkade0, total0, p, b.arkadeSats, b.totalSats)
    && b.rebalance.Some?
    && var r := b.rebalance.value;
    && r.version2
    && r.seenIds == IdsOf(Journal(ms, p, from))
    && Levelled(carry, b.totalSats, r)
    && Awaits(ms, p, carry, r.pending, r.attributionDeferred.Some?)
  }

  /** Everything known about one interval, from `b` at `p` to a sample at `q`. */
  ghost predicate Interval(ms: seq<Move>, arkade0: nat, total0: nat, p: Progress, carry: Carry, from: nat, b: Checkpoint,
                           q: Progress, listedFrom: nat, arkadeSats: nat, totalSats: nat) {
    && SoundMoves(ms)
    && Settling(ms, arkade0, total0, p, carry, from, b)
    && InRange(ms, q) && NotBefore(p, q)
    && Reads(ms, arkade0, total0, q, arkadeSats, totalSats)
    && from <= listedFrom <= p.done
  }

  /** What the interval shows: the Arkade drop is the new debits, the total also regains the credits. */
  lemma IntervalReadings(ms: seq<Move>, arkade0: nat, total0: nat, p: Progress, carry: Carry, from: nat, b: Checkpoint,
                         q: Progress, listedFrom: nat, arkadeSats: nat, totalSats: nat)
    requires Interval(ms, arkade0, total0, p, carry, from, b, q, listedFrom, arkadeSats, totalSats)
    ensures DebitsSeen(p) <= DebitsSeen(q) <= |ms| && CreditsSeen(p) <= CreditsSeen(q) <= |ms| && WholeUpTo(p, q) <= |ms|
    ensures SourceDrop(Some(b), arkadeSats) == Debits(ms, DebitsSeen(p), DebitsSeen(q))
    ensures Delta(Some(b), totalSats) ==
            Credits(ms, CreditsSeen(p), CreditsSeen(q)) - Debits(ms, DebitsSeen(p), DebitsSeen(q))
  {
    SumsSplit(ms, 0, DebitsSeen(p), DebitsSeen(q));
    SumsSplit(ms, 0, CreditsSeen(p), CreditsSeen(q));
  }

  /** The journal rows a checkpoint at `p` has seen are the moves listed then, and no later one. */
  lemma SeenMoves(ms: seq<Move>, p: Progress, from: nat, i: nat)
    requires SoundMoves(ms) && InRange(ms, p) && from <= p.done && i < |ms|
    ensures from <= i < FirstUnseen(p) ==> ms[i].id in IdsOf(Journal(ms, p, from))
    ensures i >= FirstUnseen(p) ==> ms[i].id !in IdsOf(Journal(ms, p, from))
  {
    var rows := Journal(ms, p, from);
    if from <= i < FirstUnseen(p) {
      assert rows[i - from] in rows;
    }
    if i >= FirstUnseen(p) {
      forall row | row in rows ensures row.id != ms[i].id {
        var k :| 0 <= k < |rows| && rows[k] == row;
        assert row.id == ms[from + k].id;
      }
    }
  }

  lemma JournalLookup(ms: seq<Move>, p: Progress, from: nat, i: nat)
    requires SoundMoves(ms) && InRange(ms, p) && from <= i < |ms| && i < FirstUnseen(p) && from <= p.done
    ensures Lookup(Journal(ms, p, from), ms[i].id) ==
            Some(if i < p.done then DoneRow(ms[i]) else FlightRow(ms[i], p.state))
  {
    var rows := Journal(ms, p, from);
    assert forall k :: 0 <= k < |rows| ==> rows[k].id == ms[from + k].id;
    assert rows[i - from] in rows;
    LookupDistinct(rows, rows[i - from]);
  }

  // ---- the first pass ----

  /** The first pass once the moves before `i` have taken their shares, and excused their fees as far as they fit. */
  ghost predicate Taken(ms: seq<Move>, first: nat, i: nat, start: Attribution, r: Attribution)
    requires i <= |ms|
  {
    if i <= first then r == start
    else
      r == Attribution(start.feeAllowance + Min(start.decrease, FeesFor(ms, first, i, start.sourceDecrease)),
                       Positive(start.decrease - FeesFor(ms, first, i, start.sourceDecrease)),
                       LeftFor(ms, first, i, start.sourceDecrease), start.pending)
  }

  lemma NothingTaken(ms: seq<Move>, first: nat, start: Attribution, r: Attribution)
    requires first < |ms| && Taken(ms, first, first, start, r)
    ensures r == Attribution(start.feeAllowance + Min(start.decrease, FeesFor(ms, first, first, start.sourceDecrease)),
                             Positive(start.decrease - FeesFor(ms, first, first, start.sourceDecrease)),
                             LeftFor(ms, first, first, start.sourceDecrease), start.pending)
  {
  }

  lemma OneTaken(b: Checkpoint, ms: seq<Move>, first: nat, i: nat, start: Attribution, before: Attribution)
    requires first <= i < |ms| && Taken(ms, first, i, start, before)
    requires ms[i].id !in PriorSeen(Some(b)) && !HoldsId(before.pending, ms[i].id)
    ensures Taken(ms, first, i + 1, start, Admit(Some(b), before, DoneRow(ms[i])))
  {
    if i == first { NothingTaken(ms, first, start, before); }
    assert CompletionAllowance(DoneRow(ms[i]), ShareOf(ms, first, i, start.sourceDecrease))
           == FeeFor(ms[i], ShareOf(ms, first, i, start.sourceDecrease));
  }

  lemma StartsFrom(ms: seq<Move>, arkade0: nat, total0: nat, p: Progress, carry: Carry, from: nat, b: Checkpoint,
                   arkadeSats: nat, totalSats: nat)
    requires Settling(ms, arkade0, total0, p, carry, from, b)
    ensures InRange(ms, p) && from <= p.done && b.rebalance.Some?
    ensures Start(Some(b), totalSats, arkadeSats) ==
            Attribution(b.rebalance.value.feeAllowanceUsedSats, Positive(-Delta(Some(b), totalSats)),
                        SourceDrop(Some(b), arkadeSats), b.rebalance.value.pending)
    ensures Awaits(ms, p, carry, b.rebalance.value.pending, b.rebalance.value.attributionDeferred.Some?)
  {
  }

  lemma SeenSkipped(ms: seq<Move>, arkade0: nat, total0: nat, p: Progress, carry: Carry, from: nat, b: Checkpoint, i: nat, a: Attribution)
    requires SoundMoves(ms) && Settling(ms, arkade0, total0, p, carry, from, b) && from <= i < FirstUnseen(p)
    ensures Admit(Some(b), a, DoneRow(ms[i])) == a
  {
    SeenMoves(ms, p, from, i);
  }

  lemma UnseenHeld(ms: seq<Move>, arkade0: nat, total0: nat, p: Progress, carry: Carry, from: nat, b: Checkpoint, i: nat)
    requires SoundMoves(ms) && Settling(ms, arkade0, total0, p, carry, from, b) && FirstUnseen(p) <= i < |ms|
    ensures ms[i].id !in PriorSeen(Some(b)) && !HoldsId(b.rebalance.value.pending, ms[i].id)
  {
    hide Reads, Levelled, Journal;
    SeenMoves(ms, p, from, i);
  }

  lemma TakenKeeps(ms: seq<Move>, first: nat, i: nat, start: Attribution, r: Attribution)
    requires i <= |ms| && Taken(ms, first, i, start, r)
    ensures r.pending == start.pending
  {
  }

  lemma {:induction false} AdmitOver(ms: seq<Move>, arkade0: nat, total0: nat, p: Progress, carry: Carry, from: nat, b: Checkpoint,
                                     q: Progress, listedFrom: nat, start: Attribution, n: nat)
    requires SoundMoves(ms) && Settling(ms, arkade0, total0, p, carry, from, b) && InRange(ms, q)
    requires from <= listedFrom <= p.done && listedFrom + n <= q.done && start.pending == b.rebalance.value.pending
    ensures Taken(ms, FirstUnseen(p), listedFrom + n, start, AdmitAll(Some(b), start, Journal(ms, q, listedFrom)[..n]))
  {
    hide Admit, Settling, Taken;
    if n > 0 {
      AdmitOver(ms, arkade0, total0, p, carry, from, b, q, listedFrom, start, n - 1);
      var rows, i := Journal(ms, q, listedFrom), listedFrom + n - 1;
      assert rows[..n][..n - 1] == rows[..n - 1];
      var before := AdmitAll(Some(b), start, rows[..n - 1]);
      TakenKeeps(ms, FirstUnseen(p), i, start, before);
      if i < FirstUnseen(p) {
        SeenSkipped(ms, arkade0, total0, p, carry, from, b, i, before);
        StillNothing(ms, FirstUnseen(p), i, start, before);
      } else {
        UnseenHeld(ms, arkade0, total0, p, carry, from, b, i);
        OneTaken(b, ms, FirstUnseen(p), i, start, before);
      }
    } else {
      NoneYet(ms, FirstUnseen(p), listedFrom, start);
    }
  }

  lemma StillNothing(ms: seq<Move>, first: nat, i: nat, start: Attribution, r: Attribution)
    requires i < first && i < |ms| && Taken(ms, first, i, start, r)
    ensures Taken(ms, first, i + 1, start, r)
  {
  }

  lemma NoneYet(ms: seq<Move>, first: nat, i: nat, start: Attribution)
    requires i <= first && i <= |ms|
    ensures Taken(ms, first, i, start, start)
  {
  }

  lemma AllTaken(ms: seq<Move>, p: Progress, q: Progress, start: Attribution, r: Attribution)
    requires Known(ms, p, q) && Taken(ms, FirstUnseen(p), q.done, start, r)
    ensures WholeUpTo(p, q) <= |ms|
    ensures var fees := FeesFor(ms, FirstUnseen(p), WholeUpTo(p, q), start.sourceDecrease);
            r == Attribution(start.feeAllowance + Min(start.decrease, fees), Positive(start.decrease - fees),
                             LeftOfWhole(ms, p, q, start.sourceDecrease), start.pending)
  {
  }

  /** The transfer the sample meets for the first time in flight. */
  function Joining(ms: seq<Move>, p: Progress, q: Progress): seq<Held>
    requires q.phase != Idle ==> q.done < |ms|
  {
    if Joins(p, q) then [Held(ms[q.done].id, ms[q.done].chargedAt, false, 0, 0)] else []
  }

  lemma JoinsLast(ms: seq<Move>, arkade0: nat, total0: nat, p: Progress, carry: Carry, from: nat, b: Checkpoint, q: Progress, a: Attribution)
    requires SoundMoves(ms) && Settling(ms, arkade0, total0, p, carry, from, b)
    requires InRange(ms, q) && NotBefore(p, q) && q.phase != Idle && a.pending == b.rebalance.value.pending
    ensures Admit(Some(b), a, FlightRow(ms[q.done], q.state)) == a.(pending := a.pending + Joining(ms, p, q))
  {
    if Joins(p, q) {
      UnseenHeld(ms, arkade0, total0, p, carry, from, b, q.done);
    } else {
      assert q.done == p.done;
      SeenMoves(ms, p, from, q.done);
      assert a.pending + [] == a.pending;
    }
  }

  lemma Admitted(ms: seq<Move>, arkade0: nat, total0: nat, p: Progress, carry: Carry, from: nat, b: Checkpoint, q: Progress,
                 listedFrom: nat, start: Attribution)
    requires SoundMoves(ms) && Settling(ms, arkade0, total0, p, carry, from, b) && InRange(ms, q) && NotBefore(p, q)
    requires from <= listedFrom <= p.done && start.pending == b.rebalance.value.pending
    ensures WholeUpTo(p, q) <= |ms|
    ensures var fees := FeesFor(ms, FirstUnseen(p), WholeUpTo(p, q), start.sourceDecrease);
            AdmitAll(Some(b), start, Journal(ms, q, listedFrom)) ==
            Attribution(start.feeAllowance + Min(start.decrease, fees), Positive(start.decrease - fees),
                        LeftOfWhole(ms, p, q, start.sourceDecrease), start.pending + Joining(ms, p, q))
  {
    hide Settling, Admit, Taken, LeftOfWhole, FeesFor;
    var rows := Journal(ms, q, listedFrom);
    var n := q.done - listedFrom;
    AdmitOver(ms, arkade0, total0, p, carry, from, b, q, listedFrom, start, n);
    var over := AdmitAll(Some(b), start, rows[..n]);
    assert InRange(ms, p) by { StartsFrom(ms, arkade0, total0, p, carry, from, b, 0, 0); }
    AllTaken(ms, p, q, start, over);
    if q.phase == Idle {
      assert rows[..n] == rows;
      assert over.pending + [] == over.pending;
    } else {
      assert rows[..|rows| - 1] == rows[..n];
      JoinsLast(ms, arkade0, total0, p, carry, from, b, q, over);
    }
  }

  // ---- the second pass ----

  /** All that left Arkade is still in the decrease, and what is in flight is held in full. */
  ghost predicate Fits(a: Attribution, h: Held, carry: Carry) {
    a.decrease >= a.sourceDecrease && h.remainingSats == carry.share
  }

  /** One awaited transfer's turn. */
  lemma ObserveMove(rows: seq<Transfer>, a: Attribution, i: nat, m: Move, carry: Carry)
    requires i < |a.pending| && HeldAs(a.pending[i], m, carry)
    requires Lookup(rows, m.id).Some? && Lookup(rows, m.id).value.debitSats == m.ceiling
    ensures var r := Observe(rows, a, i);
            && r.feeAllowance == a.feeAllowance
            && r.sourceDecrease == LeftAfter(m, carry, a.sourceDecrease)
            && HeldAs(r.pending[i], m, Given(m, carry, a.sourceDecrease))
            && (forall j :: 0 <= j < |a.pending| && j != i ==> r.pending[j] == a.pending[j])
            && (Fits(a, a.pending[i], carry) ==>
                  r.decrease >= r.sourceDecrease && r.pending[i].remainingSats == Given(m, carry, a.sourceDecrease).share)
  {
  }

  /** Who is awaited after the second pass, and what each has been given. */
  ghost predicate Watched(ms: seq<Move>, p: Progress, carry: Carry, q: Progress, left: nat, pending: seq<Held>)
    requires InRange(ms, p) && InRange(ms, q)
  {
    var n := if p.phase == Idle then 0 else 1;
    && |pending| == n + (if Joins(p, q) then 1 else 0)
    && (p.phase != Idle ==> HeldAs(pending[0], ms[p.done], Since(ms, p, carry, left)))
    && (Joins(p, q) ==> HeldAs(pending[n], ms[q.done], Given(ms[q.done], NOTHING, LeftSince(ms, p, carry, left))))
  }

  /** Before it. */
  ghost predicate Waiting(ms: seq<Move>, p: Progress, carry: Carry, q: Progress, pending: seq<Held>)
    requires InRange(ms, p) && InRange(ms, q)
  {
    var n := if p.phase == Idle then 0 else 1;
    && |pending| == n + (if Joins(p, q) then 1 else 0)
    && (p.phase != Idle ==> HeldAs(pending[0], ms[p.done], carry))
    && (Joins(p, q) ==> pending[n] == Held(ms[q.done].id, ms[q.done].chargedAt, false, 0, 0))
  }

  lemma ObservedAll(ms: seq<Move>, p: Progress, carry: Carry, q: Progress, listedFrom: nat, a: Attribution)
    requires SoundMoves(ms) && Known(ms, p, q) && listedFrom <= p.done && Waiting(ms, p, carry, q, a.pending)
    ensures var r := ObserveUpTo(Journal(ms, q, listedFrom), a, |a.pending|);
            && Watched(ms, p, carry, q, a.sourceDecrease, r.pending) && r.feeAllowance == a.feeAllowance
            && (a.decrease >= a.sourceDecrease && (p.phase != Idle ==> a.pending[0].remainingSats == carry.share) ==>
                  && (p.phase != Idle ==> r.pending[0].remainingSats == Since(ms, p, carry, a.sourceDecrease).share)
                  && (Joins(p, q) ==> r.pending[|r.pending| - 1].remainingSats ==
                                      Given(ms[q.done], NOTHING, LeftSince(ms, p, carry, a.sourceDecrease)).share))
  {
    hide Observe, Journal, HeldAs;
    var rows := Journal(ms, q, listedFrom);
    assert ObserveUpTo(rows, a, 0) == a;
    if p.phase != Idle {
      JournalLookup(ms, q, listedFrom, p.done);
      ObserveMove(rows, a, 0, ms[p.done], carry);
      var mid := Observe(rows, a, 0);
      assert ObserveUpTo(rows, a, 1) == mid;
      if Joins(p, q) {
        JoinedFresh(ms, q, mid.pending[1]);
        JournalLookup(ms, q, listedFrom, q.done);
        ObserveMove(rows, mid, 1, ms[q.done], NOTHING);
        assert ObserveUpTo(rows, a, 2) == Observe(rows, mid, 1);
      }
    } else if Joins(p, q) {
      JoinedFresh(ms, q, a.pending[0]);
      JournalLookup(ms, q, listedFrom, q.done);
      ObserveMove(rows, a, 0, ms[q.done], NOTHING);
      assert ObserveUpTo(rows, a, 1) == Observe(rows, a, 0);
    }
  }

  lemma JoinedFresh(ms: seq<Move>, q: Progress, h: Held)
    requires q.done < |ms| && h == Held(ms[q.done].id, ms[q.done].chargedAt, false, 0, 0)
    ensures HeldAs(h, ms[q.done], NOTHING)
  {
  }

  // ---- the third pass ----

  function DoneFee(rows: seq<Transfer>, h: Held): nat {
    var row := Lookup(rows, h.id);
    if StillPending(rows, h) || row.None? then 0 else CompletionAllowance(row.value, h.observedDebitSats)
  }

  function Keep(rows: seq<Transfer>, h: Held): seq<Held> {
    if StillPending(rows, h) then [h] else []
  }

  lemma SettleFew(rows: seq<Transfer>, pending: seq<Held>)
    ensures |pending| == 0 ==> Remaining(rows, pending) == [] && FeesOfDone(rows, pending) == 0
    ensures |pending| == 1 ==> Remaining(rows, pending) == Keep(rows, pending[0])
                               && FeesOfDone(rows, pending) == DoneFee(rows, pending[0])
    ensures |pending| == 2 ==> Remaining(rows, pending) == Keep(rows, pending[0]) + Keep(rows, pending[1])
                               && FeesOfDone(rows, pending) == DoneFee(rows, pending[0]) + DoneFee(rows, pending[1])
  {
    hide Remaining, FeesOfDone, Keep, DoneFee;
    SettleNone(rows);
    if |pending| == 1 {
      assert pending[..0] == [];
      SettleOne(rows, pending);
    } else if |pending| == 2 {
      assert pending[..1][..0] == [];
      SettleOne(rows, pending[..1]);
      SettleOne(rows, pending);
    }
  }

  lemma SettleNone(rows: seq<Transfer>)
    ensures Remaining(rows, []) == [] && FeesOfDone(rows, []) == 0
  {
  }

  lemma SettleOne(rows: seq<Transfer>, pending: seq<Held>)
    requires pending != []
    ensures var n := |pending| - 1;
            Remaining(rows, pending) == Remaining(rows, pending[..n]) + Keep(rows, pending[n])
            && FeesOfDone(rows, pending) == FeesOfDone(rows, pending[..n]) + DoneFee(rows, pending[n])
  {
    var earlier := Remaining(rows, pending[..|pending| - 1]);
    assert earlier + [] == earlier;
  }

  lemma KeptInFlight(ms: seq<Move>, q: Progress, from: nat, h: Held)
    requires SoundMoves(ms) && InRange(ms, q) && q.phase != Idle && from <= q.done && h.id == ms[q.done].id
    ensures DoneFee(Journal(ms, q, from), h) == 0 && Keep(Journal(ms, q, from), h) == [h]
  {
    JournalLookup(ms, q, from, q.done);
  }

  lemma DroppedDone(ms: seq<Move>, q: Progress, from: nat, i: nat, h: Held, carry: Carry)
    requires SoundMoves(ms) && InRange(ms, q) && from <= i < q.done && HeldAs(h, ms[i], carry)
    ensures DoneFee(Journal(ms, q, from), h) == FeeFor(ms[i], carry.share) && Keep(Journal(ms, q, from), h) == []
  {
    JournalLookup(ms, q, from, i);
  }

  lemma Settled(ms: seq<Move>, p: Progress, carry: Carry, q: Progress, from: nat, left: nat, pending: seq<Held>)
    requires SoundMoves(ms) && Known(ms, p, q) && from <= p.done && Watched(ms, p, carry, q, left, pending)
    ensures Remaining(Journal(ms, q, from), pending) == if q.phase == Idle then [] else [pending[|pending| - 1]]
    ensures FeesOfDone(Journal(ms, q, from), pending) ==
            if p.phase != Idle && p.done < q.done then FeeFor(ms[p.done], Since(ms, p, carry, left).share) else 0
  {
    hide Journal, Keep, DoneFee, Remaining, FeesOfDone, FeeFor, Since;
    if p.phase != Idle {
      if p.done < q.done {
        DroppedDone(ms, q, from, p.done, pending[0], Since(ms, p, carry, left));
      } else {
        KeptInFlight(ms, q, from, pending[0]);
      }
    }
    if Joins(p, q) { KeptInFlight(ms, q, from, pending[|pending| - 1]); }
    SettleFew(Journal(ms, q, from), pending);
  }

  // ---- the whole sample ----

  /** What one interval does to the accounting. */
  ghost predicate Outcome(ms: seq<Move>, p: Progress, carry: Carry, b: Rebalance, q: Progress, listedFrom: nat,
                          drop: nat, delta: int, totalSats: nat, r: Rebalance)
    requires Known(ms, p, q) && listedFrom <= q.done && WholeUpTo(p, q) <= |ms|
  {
    var next := NextCarry(ms, p, carry, q, drop);
    && r.version2
    && r.seenIds == IdsOf(Journal(ms, q, listedFrom))
    && r.feeAllowanceUsedSats == b.feeAllowanceUsedSats + Excused(ms, p, carry, q, drop, Positive(-delta))
    && r.attributionDeferred.Some? == PutOff(p, b.attributionDeferred.Some?, q, drop, delta)
    && Awaits(ms, q, next, r.pending, r.attributionDeferred.Some?)
    && Levelled(next, totalSats, r)
    && (r.attributionDeferred.Some? ==> r.comparisonTotalSats == b.comparisonTotalSats)
  }

  /** With something in flight, a sample that is not put off saw no credit, so nothing both came and went. */
  lemma QuietInterval(ms: seq<Move>, arkade0: nat, total0: nat, p: Progress, carry: Carry, from: nat, b: Checkpoint, q: Progress,
                      listedFrom: nat, arkadeSats: nat, totalSats: nat)
    requires Interval(ms, arkade0, total0, p, carry, from, b, q, listedFrom, arkadeSats, totalSats) && q.phase != Idle
    requires !PutOff(p, false, q, SourceDrop(Some(b), arkadeSats), Delta(Some(b), totalSats))
    ensures WholeUpTo(p, q) == FirstUnseen(p)
  {
    IntervalReadings(ms, arkade0, total0, p, carry, from, b, q, listedFrom, arkadeSats, totalSats);
    CreditsPositive(ms, CreditsSeen(p), CreditsSeen(q));
  }

  lemma {:induction false} CreditsPositive(ms: seq<Move>, i: nat, j: nat)
    requires SoundMoves(ms) && i <= j <= |ms|
    ensures i < j ==> Credits(ms, i, j) > 0
  {
    if i < j { assert Sound(ms[j - 1]); }
  }

  /** What the sample attributes: who it awaits, and the fees it excuses. */
  lemma AttributedSo(ms: seq<Move>, arkade0: nat, total0: nat, p: Progress, carry: Carry, from: nat, b: Checkpoint, q: Progress,
                     listedFrom: nat, arkadeSats: nat, totalSats: nat)
    requires Interval(ms, arkade0, total0, p, carry, from, b, q, listedFrom, arkadeSats, totalSats)
    ensures WholeUpTo(p, q) <= |ms|
    ensures var rows, drop := Journal(ms, q, listedFrom), SourceDrop(Some(b), arkadeSats);
            var a, left := Attributed(Some(b), totalSats, arkadeSats, rows), LeftOfWhole(ms, p, q, drop);
            && Watched(ms, p, carry, q, left, a.pending)
            && a.feeAllowance == b.rebalance.value.feeAllowanceUsedSats +
               Min(Positive(-Delta(Some(b), totalSats)), FeesFor(ms, FirstUnseen(p), WholeUpTo(p, q), drop))
            && (WholeUpTo(p, q) == FirstUnseen(p) && drop <= Positive(-Delta(Some(b), totalSats))
                && b.rebalance.value.attributionDeferred.None? && q.phase != Idle ==>
                  a.pending[|a.pending| - 1].remainingSats == NextCarry(ms, p, carry, q, drop).share)
  {
    hide Settling, Reads, SourceDrop, Delta, Journal, AdmitAll, ObserveUpTo, Watched, Given, HeldAs, LeftSince, Since;
    var rows, start := Journal(ms, q, listedFrom), Start(Some(b), totalSats, arkadeSats);
    StartsFrom(ms, arkade0, total0, p, carry, from, b, arkadeSats, totalSats);
    Admitted(ms, arkade0, total0, p, carry, from, b, q, listedFrom, start);
    var admitted := AdmitAll(Some(b), start, rows);
    ObservedAll(ms, p, carry, q, listedFrom, admitted);
    if q.phase != Idle { LastWatched(ms, p, carry, q, admitted.sourceDecrease, Attributed(Some(b), totalSats, arkadeSats, rows).pending); }
  }

  lemma LastWatched(ms: seq<Move>, p: Progress, carry: Carry, q: Progress, left: nat, pending: seq<Held>)
    requires Known(ms, p, q) && q.phase != Idle && Watched(ms, p, carry, q, left, pending)
    ensures |pending| > 0 && (!Joins(p, q) ==> |pending| == 1 && p.phase != Idle && p.done == q.done)
    ensures HeldAs(pending[|pending| - 1], ms[q.done],
                   if Joins(p, q) then Given(ms[q.done], NOTHING, LeftSince(ms, p, carry, left)) else Since(ms, p, carry, left))
  {
  }

  lemma NothingMissing(ms: seq<Move>, arkade0: nat, total0: nat, p: Progress, carry: Carry, from: nat, b: Checkpoint, q: Progress,
                       listedFrom: nat)
    requires SoundMoves(ms) && Settling(ms, arkade0, total0, p, carry, from, b) && InRange(ms, q) && NotBefore(p, q)
    requires from <= listedFrom <= p.done
    ensures FirstMissing(Journal(ms, q, listedFrom), HeldIds(PriorPending(Some(b)))).None?
  {
    hide Settling, Reads, FirstMissing;
    StartsFrom(ms, arkade0, total0, p, carry, from, b, 0, 0);
    var ids := HeldIds(PriorPending(Some(b)));
    if p.phase != Idle {
      JournalLookup(ms, q, listedFrom, p.done);
      assert forall id :: id in ids ==> id == ms[p.done].id;
    }
  }

  lemma PutOffSo(ms: seq<Move>, arkade0: nat, total0: nat, p: Progress, carry: Carry, from: nat, b: Checkpoint, q: Progress,
                 arkadeSats: nat, totalSats: nat, observed: seq<Held>, remaining: seq<Held>)
    requires Settling(ms, arkade0, total0, p, carry, from, b) && (remaining == [] <==> q.phase == Idle)
    ensures var d := NextDeferral(Some(b), totalSats, arkadeSats, observed, remaining);
            && b.rebalance.Some?
            && d.Some? == PutOff(p, b.rebalance.value.attributionDeferred.Some?, q, SourceDrop(Some(b), arkadeSats), Delta(Some(b), totalSats))
            && (d.Some? ==> d.value.anchorComparisonTotalSats == b.rebalance.value.comparisonTotalSats)
  {
    hide Reads, Journal, SourceDrop, Delta, AppendNew, HeldIds;
  }

  lemma OneInFlight(h: Held)
    ensures RemainingSats([h]) == h.remainingSats && RemainingSats([]) == 0
  {
    assert [h][..0] == [];
  }

  lemma GivenFits(m: Move, carry: Carry, left: nat)
    requires !carry.seen ==> carry.share == 0
    ensures !Given(m, carry, left).seen ==> Given(m, carry, left).share == 0
  {
  }

  /** Who is still awaited fits what the moves have been given. */
  lemma AwaitsSo(ms: seq<Move>, p: Progress, carry: Carry, pending: seq<Held>, wasPutOff: bool, q: Progress, drop: nat,
                 observed: seq<Held>, remaining: seq<Held>, putOff: bool)
    requires Known(ms, p, q) && Awaits(ms, p, carry, pending, wasPutOff) && WholeUpTo(p, q) <= |ms|
    requires Watched(ms, p, carry, q, LeftOfWhole(ms, p, q, drop), observed)
    requires remaining == (if q.phase == Idle then [] else [observed[|observed| - 1]])
    requires !putOff && q.phase != Idle ==> observed[|observed| - 1].remainingSats == NextCarry(ms, p, carry, q, drop).share
    ensures Awaits(ms, q, NextCarry(ms, p, carry, q, drop), remaining, putOff)
    ensures !putOff ==> RemainingSats(remaining) == NextCarry(ms, p, carry, q, drop).share
  {
    hide LeftOfWhole, RemainingSats, Given, LeftSince;
    OneInFlight(Held(0, 0, false, 0, 0));
    if q.phase != Idle {
      var left := LeftOfWhole(ms, p, q, drop);
      LastWatched(ms, p, carry, q, left, observed);
      OneInFlight(observed[|observed| - 1]);
      if Joins(p, q) { GivenFits(ms[q.done], NOTHING, LeftSince(ms, p, carry, left)); } else { GivenFits(ms[p.done], carry, left); }
    }
  }

  /**
   * One interval, whatever came and went in it, from the readings and the journal alone: the
   * drop is divided by `NextCarry`, the fees excused are those of `Excused`, and the comparison
   * is put off as `PutOff` says.
   */
  lemma IntervalOutcome(ms: seq<Move>, arkade0: nat, total0: nat, p: Progress, carry: Carry, from: nat, b: Checkpoint, q: Progress,
                        listedFrom: nat, arkadeSats: nat, totalSats: nat)
    requires Interval(ms, arkade0, total0, p, carry, from, b, q, listedFrom, arkadeSats, totalSats)
    ensures Known(ms, p, q) && WholeUpTo(p, q) <= |ms|
    ensures var r := Accounted(Some(b), totalSats, arkadeSats, Journal(ms, q, listedFrom));
            r.Ok? && Outcome(ms, p, carry, b.rebalance.value, q, listedFrom, SourceDrop(Some(b), arkadeSats),
                             Delta(Some(b), totalSats), totalSats, r.value)
  {
    hide Settling, Reads, SourceDrop, Delta, Attributed, NextDeferral, Remaining, FeesOfDone, Watched, Awaits, FirstMissing,
         NextCarry, LeftOfWhole, FeesFor, RemainingSats, SoundMoves, MayResolve, Since, Journal;
    var rows, drop, delta := Journal(ms, q, listedFrom), SourceDrop(Some(b), arkadeSats), Delta(Some(b), totalSats);
    StartsFrom(ms, arkade0, total0, p, carry, from, b, arkadeSats, totalSats);
    NothingMissing(ms, arkade0, total0, p, carry, from, b, q, listedFrom);
    AttributedSo(ms, arkade0, total0, p, carry, from, b, q, listedFrom, arkadeSats, totalSats);
    var a := Attributed(Some(b), totalSats, arkadeSats, rows);
    var remaining, was := Remaining(rows, a.pending), b.rebalance.value.attributionDeferred.Some?;
    Settled(ms, p, carry, q, listedFrom, LeftOfWhole(ms, p, q, drop), a.pending);
    PutOffSo(ms, arkade0, total0, p, carry, from, b, q, arkadeSats, totalSats, a.pending, remaining);
    var putOff := NextDeferral(Some(b), totalSats, arkadeSats, a.pending, remaining).Some?;
    if !putOff && q.phase != Idle { QuietInterval(ms, arkade0, total0, p, carry, from, b, q, listedFrom, arkadeSats, totalSats); }
    AwaitsSo(ms, p, carry, b.rebalance.value.pending, was, q, drop, a.pending, remaining, putOff);
  }

  /** A checkpoint that persists this outcome is where the next interval starts. */
  lemma NextStart(ms: seq<Move>, arkade0: nat, total0: nat, p: Progress, carry: Carry, b: Rebalance, q: Progress, listedFrom: nat,
                  drop: nat, delta: int, c: Checkpoint)
    requires Known(ms, p, q) && listedFrom <= q.done && WholeUpTo(p, q) <= |ms|
    requires Reads(ms, arkade0, total0, q, c.arkadeSats, c.totalSats)
    requires c.rebalance.Some? && Outcome(ms, p, carry, b, q, listedFrom, drop, delta, c.totalSats, c.rebalance.value)
    ensures Settling(ms, arkade0, total0, q, NextCarry(ms, p, carry, q, drop), listedFrom, c)
  {
    hide Reads, Awaits, Levelled, Journal, NextCarry, Excused;
  }
}
