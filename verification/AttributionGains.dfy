/**
 * What an interval does to the level of the comparison, from its readings, its journal and where
 * the run began: shares that do not reach a move's credit raise it, fees the decrease has no room
 * for and debits nobody is given lower it. Nothing else does.
 */
module AttributionGains {
  import opened Util
  import opened CheckpointTypes
  import opened NoFalseAlarm

  /** What shares below their credits give back. */
  function Overs(ms: seq<Move>, first: nat, i: nat, drop: nat): nat
    requires first <= i <= |ms|
  {
    if i == first then 0
    else Overs(ms, first, i - 1, drop) + Positive(ms[i - 1].credit - ShareOf(ms, first, i - 1, drop))
  }

  /** The move in flight was credited before the run's first reading, so no later reading gains its credit. */
  predicate Early(first: Progress, p: Progress) {
    first.phase == Credited && p.phase == Credited && p.done == first.done
  }

  function Over(ms: seq<Move>, first: Progress, p: Progress, carry: Carry, q: Progress, drop: nat): nat
    requires WholeUpTo(p, q) <= |ms| && (p.phase != Idle ==> p.done < |ms|)
  {
    Overs(ms, FirstUnseen(p), WholeUpTo(p, q), drop) +
    if p.phase != Idle && p.done < q.done && !Early(first, p)
    then Positive(ms[p.done].credit - Since(ms, p, carry, LeftOfWhole(ms, p, q, drop)).share) else 0
  }

  /** The fees the decrease had no room for. */
  function Short(ms: seq<Move>, p: Progress, q: Progress, drop: nat, decrease: nat): nat
    requires WholeUpTo(p, q) <= |ms|
  {
    Positive(FeesFor(ms, FirstUnseen(p), WholeUpTo(p, q), drop) - decrease)
  }

  /** What is left of the drop when every move has its share. */
  function Lost(ms: seq<Move>, p: Progress, carry: Carry, q: Progress, drop: nat): nat
    requires WholeUpTo(p, q) <= |ms| && (p.phase != Idle ==> p.done < |ms|) && (q.phase != Idle ==> q.done < |ms|)
  {
    var left := LeftSince(ms, p, carry, LeftOfWhole(ms, p, q, drop));
    if Joins(p, q) then LeftAfter(ms[q.done], NOTHING, left) else left
  }

  /** What an interval adds to the level. */
  function GainOf(ms: seq<Move>, first: Progress, p: Progress, carry: Carry, q: Progress, drop: nat, decrease: nat): int
    requires WholeUpTo(p, q) <= |ms| && (p.phase != Idle ==> p.done < |ms|) && (q.phase != Idle ==> q.done < |ms|)
  {
    Over(ms, first, p, carry, q, drop) - Short(ms, p, q, drop, decrease) - Lost(ms, p, carry, q, drop)
  }

  /** What a run may have given the move in flight. */
  ghost predicate CarryFits(ms: seq<Move>, first: Progress, p: Progress, carry: Carry)
    requires InRange(ms, p)
  {
    if p.phase == Idle then carry == NOTHING
    else
      && carry.share <= ms[p.done].ceiling
      && (!carry.seen ==> carry.share == 0)
      && (Early(first, p) ==> carry == Carry(true, 0))
      && (p.phase == Charged && carry.seen ==> first.phase == Charged)
  }

  /** A credit the total shows already, while its move is still in flight. */
  function CreditAhead(ms: seq<Move>, first: Progress, p: Progress): nat
    requires p.phase != Idle ==> p.done < |ms|
  {
    if p.phase == Credited && !Early(first, p) then ms[p.done].credit else 0
  }

  // ---- the shares add up ----

  lemma {:induction false} WholeShares(ms: seq<Move>, first: nat, i: nat, drop: nat)
    requires SoundMoves(ms) && first <= i <= |ms|
    ensures FeesFor(ms, first, i, drop) ==
            drop - LeftFor(ms, first, i, drop) - Credits(ms, first, i) + Overs(ms, first, i, drop)
  {
    if first < i {
      WholeShares(ms, first, i - 1, drop);
      assert Sound(ms[i - 1]);
      assert Ceilings(ms, first, i) == Ceilings(ms, first, i - 1) + ms[i - 1].ceiling;
    }
  }

  lemma {:induction false} CreditsSplit(ms: seq<Move>, i: nat, j: nat, k: nat)
    requires i <= j <= k <= |ms|
    ensures Credits(ms, i, k) == Credits(ms, i, j) + Credits(ms, j, k)
  {
    if j < k { CreditsSplit(ms, i, j, k - 1); }
  }

  lemma OneCredit(ms: seq<Move>, i: nat)
    requires i <= |ms|
    ensures Credits(ms, i, i) == 0 && (i < |ms| ==> Credits(ms, i, i + 1) == ms[i].credit)
  {
    if i < |ms| { assert Credits(ms, i, i + 1) == Credits(ms, i, i) + ms[i].credit; }
  }

  /** The credits an interval shows: those that came and went, the one awaited, and the one still in flight. */
  lemma CreditsShown(ms: seq<Move>, p: Progress, q: Progress)
    requires Known(ms, p, q)
    ensures CreditsSeen(p) <= CreditsSeen(q) <= |ms| && WholeUpTo(p, q) <= |ms|
    ensures Credits(ms, CreditsSeen(p), CreditsSeen(q)) ==
            Credits(ms, FirstUnseen(p), WholeUpTo(p, q))
            + (if p.phase != Idle && p.phase != Credited && p.done < CreditsSeen(q) then ms[p.done].credit else 0)
            + (if Joins(p, q) && q.phase == Credited then ms[q.done].credit else 0)
  {
    hide Credits;
    OneCredit(ms, p.done);
    OneCredit(ms, q.done);
    if FirstUnseen(p) <= |ms| { OneCredit(ms, FirstUnseen(p)); }
    if FirstUnseen(p) <= q.done {
      CreditsSplit(ms, CreditsSeen(p), FirstUnseen(p), CreditsSeen(q));
      CreditsSplit(ms, FirstUnseen(p), q.done, CreditsSeen(q));
    }
  }

  lemma GivenShare(m: Move, carry: Carry, left: nat)
    requires carry.share <= m.ceiling && (!carry.seen ==> carry.share == 0)
    ensures Given(m, carry, left).share - carry.share == left - LeftAfter(m, carry, left)
    ensures carry.seen ==> Given(m, carry, left) == carry && LeftAfter(m, carry, left) == left
    ensures Given(m, carry, left).share <= m.ceiling && (!Given(m, carry, left).seen ==> Given(m, carry, left).share == 0)
  {
  }

  lemma FinishedFee(m: Move, share: nat)
    requires Sound(m) && share <= m.ceiling
    ensures FeeFor(m, share) == share - m.credit + Positive(m.credit - share)
  {
  }

  /** What the shares outside the moves that came and went add up to. */
  lemma OtherShares(ms: seq<Move>, first: Progress, p: Progress, carry: Carry, q: Progress, drop: nat)
    requires SoundMoves(ms) && Known(ms, p, q) && CarryFits(ms, first, p, carry) && WholeUpTo(p, q) <= |ms|
    ensures var left := LeftOfWhole(ms, p, q, drop);
            var since := Since(ms, p, carry, left);
            && left - Lost(ms, p, carry, q, drop) == NextCarry(ms, p, carry, q, drop).share - carry.share
               + (if p.phase != Idle && p.done < q.done then since.share else 0)
            && (p.phase != Idle && p.done < q.done ==>
                  FeeFor(ms[p.done], since.share) == since.share - ms[p.done].credit + Positive(ms[p.done].credit - since.share))
            && (Early(first, p) ==> since.share == 0)
  {
    hide FeeFor, Given, LeftAfter, LeftOfWhole;
    var left := LeftOfWhole(ms, p, q, drop);
    if p.phase != Idle {
      assert Sound(ms[p.done]);
      GivenShare(ms[p.done], carry, left);
      FinishedFee(ms[p.done], Since(ms, p, carry, left).share);
    }
    if Joins(p, q) { GivenShare(ms[q.done], NOTHING, LeftSince(ms, p, carry, left)); }
  }

  /** Excused fees, what is in flight and the readings together move exactly by the interval's gain. */
  lemma IntervalGain(ms: seq<Move>, first: Progress, p: Progress, carry: Carry, q: Progress, drop: nat, delta: int)
    requires SoundMoves(ms) && Known(ms, p, q) && NotBefore(first, p) && CarryFits(ms, first, p, carry)
    requires CreditsSeen(p) <= CreditsSeen(q) <= |ms| && delta == Credits(ms, CreditsSeen(p), CreditsSeen(q)) - drop
    ensures WholeUpTo(p, q) <= |ms|
    ensures delta + Excused(ms, p, carry, q, drop, Positive(-delta))
            + (NextCarry(ms, p, carry, q, drop).share - carry.share)
            - (CreditAhead(ms, first, q) - CreditAhead(ms, first, p))
            == GainOf(ms, first, p, carry, q, drop, Positive(-delta))
  {
    hide Credits, FeesFor, Overs, FeeFor, Since, NextCarry, Lost, CarryFits;
    CreditsShown(ms, p, q);
    WholeShares(ms, FirstUnseen(p), WholeUpTo(p, q), drop);
    OtherShares(ms, first, p, carry, q, drop);
  }

  /** The carry of the next reading fits in turn. */
  lemma NextFits(ms: seq<Move>, first: Progress, p: Progress, carry: Carry, q: Progress, drop: nat)
    requires SoundMoves(ms) && Known(ms, p, q) && NotBefore(first, p) && CarryFits(ms, first, p, carry) && WholeUpTo(p, q) <= |ms|
    requires DebitsSeen(p) <= DebitsSeen(q) <= |ms| && drop == Debits(ms, DebitsSeen(p), DebitsSeen(q))
    ensures CarryFits(ms, first, q, NextCarry(ms, p, carry, q, drop))
  {
    hide Debits, LeftAfter;
    var left := LeftOfWhole(ms, p, q, drop);
    if p.phase != Idle { GivenShare(ms[p.done], carry, left); }
    if Joins(p, q) { GivenShare(ms[q.done], NOTHING, LeftSince(ms, p, carry, left)); }
    if q.phase == Charged { ChargedUngiven(ms, first, p, carry, q, drop); }
  }

  lemma {:induction false} Capacity(ms: seq<Move>, i: nat, j: nat)
    requires SoundMoves(ms) && i <= j <= |ms|
    ensures Debits(ms, i, j) <= Ceilings(ms, i, j)
  {
    if i < j {
      assert Sound(ms[j - 1]);
      Capacity(ms, i, j - 1);
    }
  }

  lemma OneDebit(ms: seq<Move>, i: nat)
    requires i <= |ms|
    ensures Debits(ms, i, i) == 0 && (i < |ms| ==> Debits(ms, i, i + 1) == ms[i].debit)
  {
    if i < |ms| { assert Debits(ms, i, i + 1) == Debits(ms, i, i) + ms[i].debit; }
  }

  /** What the moves that came and went leave is at most the debits of the others the interval shows. */
  lemma LeftBounded(ms: seq<Move>, p: Progress, q: Progress, drop: nat)
    requires SoundMoves(ms) && Known(ms, p, q)
    requires DebitsSeen(p) <= DebitsSeen(q) <= |ms| && drop == Debits(ms, DebitsSeen(p), DebitsSeen(q))
    ensures WholeUpTo(p, q) <= |ms|
    ensures LeftOfWhole(ms, p, q, drop) <=
            (if p.phase == Charged && DebitsSeen(q) > p.done then ms[p.done].debit else 0)
            + (if Joins(p, q) && DebitsSeen(q) > q.done then ms[q.done].debit else 0)
  {
    hide Debits, Ceilings;
    OneDebit(ms, p.done);
    OneDebit(ms, q.done);
    if FirstUnseen(p) <= |ms| { OneDebit(ms, FirstUnseen(p)); }
    Capacity(ms, FirstUnseen(p), WholeUpTo(p, q));
    if FirstUnseen(p) <= q.done {
      SumsSplit(ms, DebitsSeen(p), FirstUnseen(p), DebitsSeen(q));
      SumsSplit(ms, FirstUnseen(p), q.done, DebitsSeen(q));
    }
  }

  /** A debit is left to nobody only in a run that began with a move charged and not yet debited. */
  lemma LostFrom(ms: seq<Move>, first: Progress, p: Progress, carry: Carry, q: Progress, drop: nat)
    requires SoundMoves(ms) && Known(ms, p, q) && CarryFits(ms, first, p, carry)
    requires DebitsSeen(p) <= DebitsSeen(q) <= |ms| && drop == Debits(ms, DebitsSeen(p), DebitsSeen(q))
    ensures WholeUpTo(p, q) <= |ms|
    ensures Lost(ms, p, carry, q, drop) > 0 ==> first.phase == Charged && p.phase == Charged
  {
    hide Debits, LeftOfWhole;
    LeftBounded(ms, p, q, drop);
    if p.phase != Idle { assert Sound(ms[p.done]); }
    if q.phase != Idle { assert Sound(ms[q.done]); }
  }

  /** In any other run, a move is given nothing before its debit shows. */
  lemma ChargedUngiven(ms: seq<Move>, first: Progress, p: Progress, carry: Carry, q: Progress, drop: nat)
    requires SoundMoves(ms) && Known(ms, p, q) && NotBefore(first, p) && CarryFits(ms, first, p, carry) && q.phase == Charged
    requires DebitsSeen(p) <= DebitsSeen(q) <= |ms| && drop == Debits(ms, DebitsSeen(p), DebitsSeen(q))
    ensures WholeUpTo(p, q) <= |ms|
    ensures NextCarry(ms, p, carry, q, drop).seen ==> first.phase == Charged
  {
    hide Debits, LeftOfWhole;
    LeftBounded(ms, p, q, drop);
    if p.phase != Idle { assert Sound(ms[p.done]); }
  }

  // ---- which intervals lower the level ----

  /** Nothing both came and went, or nothing was in flight at either end, or the decrease covers the fees. */
  predicate Calm(ms: seq<Move>, p: Progress, q: Progress, drop: nat, decrease: nat)
    requires WholeUpTo(p, q) <= |ms|
  {
    WholeUpTo(p, q) == FirstUnseen(p) || (p.phase == Idle && q.phase == Idle)
    || FeesFor(ms, FirstUnseen(p), WholeUpTo(p, q), drop) <= decrease
  }

  /** A calm interval lowers the level only by a debit left to nobody. */
  lemma CalmGain(ms: seq<Move>, first: Progress, p: Progress, carry: Carry, q: Progress, drop: nat, delta: int)
    requires SoundMoves(ms) && Known(ms, p, q) && NotBefore(first, p) && CarryFits(ms, first, p, carry)
    requires CreditsSeen(p) <= CreditsSeen(q) <= |ms| && delta == Credits(ms, CreditsSeen(p), CreditsSeen(q)) - drop
    requires DebitsSeen(p) <= DebitsSeen(q) <= |ms| && drop == Debits(ms, DebitsSeen(p), DebitsSeen(q))
    requires WholeUpTo(p, q) <= |ms| && Calm(ms, p, q, drop, Positive(-delta))
    ensures GainOf(ms, first, p, carry, q, drop, Positive(-delta)) + Lost(ms, p, carry, q, drop) >= 0
  {
    hide Credits, Debits, Overs, LeftOfWhole, Lost;
    if p.phase == Idle && q.phase == Idle {
      CreditsShown(ms, p, q);
      WholeShares(ms, FirstUnseen(p), WholeUpTo(p, q), drop);
      LeftBounded(ms, p, q, drop);
      NoneLeft(ms, p, q, drop);
    }
  }

  lemma NoneLeft(ms: seq<Move>, p: Progress, q: Progress, drop: nat)
    requires WholeUpTo(p, q) <= |ms|
    ensures LeftOfWhole(ms, p, q, drop) == LeftFor(ms, FirstUnseen(p), WholeUpTo(p, q), drop)
  {
  }

  /** With something in flight and nothing put off, a credit shows only if it did before. */
  lemma FreeNotAhead(ms: seq<Move>, first: Progress, p: Progress, q: Progress, drop: nat, delta: int)
    requires SoundMoves(ms) && Known(ms, p, q) && NotBefore(first, p) && CreditAhead(ms, first, p) == 0
    requires CreditsSeen(p) <= CreditsSeen(q) <= |ms| && delta == Credits(ms, CreditsSeen(p), CreditsSeen(q)) - drop
    requires !PutOff(p, false, q, drop, delta)
    ensures CreditAhead(ms, first, q) == 0
  {
    CreditsPositive(ms, CreditsSeen(p), CreditsSeen(q));
    if p.phase != Idle { assert Sound(ms[p.done]); }
  }

  // ---- intervals whose debits can be told apart ----

  function FeesPaid(ms: seq<Move>, i: nat, j: nat): int
    requires i <= j <= |ms|
  {
    if i == j then 0 else FeesPaid(ms, i, j - 1) + ms[j - 1].debit - ms[j - 1].credit
  }

  /** No move gains money. */
  ghost predicate Costly(ms: seq<Move>) {
    SoundMoves(ms) && forall i :: 0 <= i < |ms| ==> ms[i].credit <= ms[i].debit
  }

  /** At most one debit becomes visible, or every one that does is exactly what was authorised. */
  ghost predicate DebitsTellable(ms: seq<Move>, p: Progress, q: Progress)
    requires InRange(ms, p) && InRange(ms, q)
  {
    DebitsSeen(q) <= DebitsSeen(p) + 1
    || forall i :: DebitsSeen(p) <= i < DebitsSeen(q) ==> ms[i].ceiling == ms[i].debit
  }

  /** The move in flight has been given exactly the debit that shows. */
  ghost predicate Exact(ms: seq<Move>, p: Progress, carry: Carry)
    requires InRange(ms, p)
  {
    carry == if p.phase == Debited || p.phase == Credited then Carry(true, ms[p.done].debit) else NOTHING
  }

  lemma {:induction false} WholeExact(ms: seq<Move>, first: nat, i: nat, drop: nat)
    requires Costly(ms) && first <= i <= |ms| && Debits(ms, first, i) <= drop
    requires (forall k :: first <= k < i ==> ms[k].ceiling == ms[k].debit) || (i == first + 1 && drop == ms[first].debit)
    ensures LeftFor(ms, first, i, drop) == drop - Debits(ms, first, i)
    ensures FeesFor(ms, first, i, drop) == FeesPaid(ms, first, i) && Overs(ms, first, i, drop) == 0
  {
    if first < i {
      OneDebit(ms, first);
      assert Sound(ms[i - 1]);
      WholeExact(ms, first, i - 1, drop);
      assert Ceilings(ms, first, i) == Ceilings(ms, first, i - 1) + ms[i - 1].ceiling;
    }
  }

  /** What the interval's drop is made of. */
  lemma DropParts(ms: seq<Move>, p: Progress, q: Progress)
    requires SoundMoves(ms) && Known(ms, p, q) && DebitsSeen(p) <= DebitsSeen(q) <= |ms| && WholeUpTo(p, q) <= |ms|
    ensures Debits(ms, DebitsSeen(p), DebitsSeen(q)) ==
            Debits(ms, FirstUnseen(p), WholeUpTo(p, q))
            + (if p.phase == Charged && DebitsSeen(q) > p.done then ms[p.done].debit else 0)
            + (if Joins(p, q) && DebitsSeen(q) > q.done then ms[q.done].debit else 0)
  {
    hide Debits;
    OneDebit(ms, p.done);
    OneDebit(ms, q.done);
    if FirstUnseen(p) <= |ms| { OneDebit(ms, FirstUnseen(p)); }
    if FirstUnseen(p) <= q.done {
      SumsSplit(ms, DebitsSeen(p), FirstUnseen(p), DebitsSeen(q));
      SumsSplit(ms, FirstUnseen(p), q.done, DebitsSeen(q));
    }
  }

  /** The fees really paid by the moves that came and went, as far as the decrease has no room for them. */
  function Shortfall(ms: seq<Move>, p: Progress, q: Progress, decrease: nat): nat
    requires WholeUpTo(p, q) <= |ms|
  {
    Positive(FeesPaid(ms, FirstUnseen(p), WholeUpTo(p, q)) - decrease)
  }

  /** Debits that can be told apart are all attributed rightly, and the level falls only by fees without room. */
  lemma TellableGain(ms: seq<Move>, first: Progress, p: Progress, carry: Carry, q: Progress, drop: nat, decrease: nat)
    requires Costly(ms) && Known(ms, p, q) && first.phase == Idle && Exact(ms, p, carry) && DebitsTellable(ms, p, q)
    requires DebitsSeen(p) <= DebitsSeen(q) <= |ms| && drop == Debits(ms, DebitsSeen(p), DebitsSeen(q))
    ensures WholeUpTo(p, q) <= |ms|
    ensures Exact(ms, q, NextCarry(ms, p, carry, q, drop))
    ensures GainOf(ms, first, p, carry, q, drop, decrease) == -(Shortfall(ms, p, q, decrease) as int)
  {
    hide Debits, FeesFor, Overs, LeftFor, FeesPaid;
    DropParts(ms, p, q);
    OneDebit(ms, FirstUnseen(p));
    OneDebit(ms, WholeUpTo(p, q));
    WholeExact(ms, FirstUnseen(p), WholeUpTo(p, q), drop);
    if p.phase != Idle { assert Sound(ms[p.done]); }
    if q.phase != Idle { assert Sound(ms[q.done]); }
  }
}
