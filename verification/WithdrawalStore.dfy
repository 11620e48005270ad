/**
 * The operator-withdrawal journal: rows are created once and then move along a fixed graph,
 * each move a compare-and-swap on the state it was decided from.
 */
module WithdrawalStore {
  import opened Util
  import opened CheckpointTypes

  datatype Refusal = ZeroAmount | Duplicate | InvalidTransition | NotInState | MissingEvidence

  predicate Legal(from: WithdrawalState, to: WithdrawalState) {
    match from
    case Preparing => to == Sending || to == Uncertain || to == FailedWithdrawal
    case Sending => to == Sent || to == Uncertain
    case Uncertain => to == Sent || to == FailedWithdrawal
    case Sent => false
    case FailedWithdrawal => false
  }

  function OrElse<T>(a: Option<T>, b: Option<T>): Option<T> {
    if a.Some? then a else b
  }

  /** The row a transition writes, from the row it read. */
  function Moved(row: Withdrawal, to: WithdrawalState, feeSats: Option<nat>, reference: Option<Reference>): Withdrawal {
    row.(state := to, feeSats := OrElse(feeSats, row.feeSats), reference := OrElse(reference, row.reference))
  }

  /** What every stored row keeps: no fee or reference before it is sending, both once it is sent. */
  predicate RowValid(row: Withdrawal) {
    && row.amountSats > 0
    && (row.state == Preparing ==> row.feeSats.None? && row.reference.None?)
    && (row.state == Sent ==> row.feeSats.Some? && row.reference.Some?)
  }

  class Journal {
    var rows: map<Id, Withdrawal>

    ghost predicate Valid()
      reads this
    {
      forall id :: id in rows ==> rows[id].id == id && RowValid(rows[id])
    }

    constructor ()
      ensures Valid() && rows == map[]
    {
      rows := map[];
    }

    method Create(id: Id, amountSats: nat) returns (r: Result<Withdrawal, Refusal>)
      requires Valid()
      modifies this
      ensures Valid()
      ensures r.Ok? <==> amountSats > 0 && id !in old(rows)
      ensures r.Ok? ==> r.value == Withdrawal(id, amountSats, None, None, Preparing) && rows == old(rows)[id := r.value]
      ensures r.Err? ==> rows == old(rows)
    {
      if amountSats == 0 { return Err(ZeroAmount); }
      if id in rows { return Err(Duplicate); }
      var row := Withdrawal(id, amountSats, None, None, Preparing);
      rows := rows[id := row];
      r := Ok(row);
    }

    /** The update a transition ends with: it takes only where the row is still in `from`. */
    method CompareAndSwap(id: Id, from: WithdrawalState, row: Withdrawal) returns (done: bool)
      modifies this
      ensures done <==> id in old(rows) && old(rows)[id].state == from
      ensures rows == if done then old(rows)[id := row] else old(rows)
    {
      done := id in rows && rows[id].state == from;
      if done { rows := rows[id := row]; }
    }

    method Transition(id: Id, from: WithdrawalState, to: WithdrawalState, feeSats: Option<nat>, reference: Option<Reference>)
      returns (r: Result<Withdrawal, Refusal>)
      requires Valid()
      modifies this
      ensures Valid()
      ensures r.Ok? <==>
              && Legal(from, to) && id in old(rows) && old(rows)[id].state == from
              && (to == Sent ==> var row := Moved(old(rows)[id], to, feeSats, reference);
                                 row.feeSats.Some? && row.reference.Some?)
      ensures r.Ok? ==> r.value == Moved(old(rows)[id], to, feeSats, reference) && rows == old(rows)[id := r.value]
      ensures r.Err? ==> rows == old(rows)
    {
      if !Legal(from, to) { return Err(InvalidTransition); }
      if id !in rows || rows[id].state != from { return Err(NotInState); }
      var row := Moved(rows[id], to, feeSats, reference);
      if to == Sent && (row.feeSats.None? || row.reference.None?) { return Err(MissingEvidence); }
      var done := CompareAndSwap(id, from, row);
      r := if done then Ok(row) else Err(NotInState);
    }
  }

  // ---- why the swap may trust the row it read ----

  /** One move of one row. */
  ghost predicate Step(before: Withdrawal, after: Withdrawal) {
    exists feeSats, reference ::
      Legal(before.state, after.state) && after == Moved(before, after.state, feeSats, reference)
      && (after.state == Sent ==> after.feeSats.Some? && after.reference.Some?)
  }

  /** A row's states, oldest first, as other callers move it. */
  ghost predicate Path(rows: seq<Withdrawal>) {
    forall i :: 0 <= i < |rows| - 1 ==> Step(rows[i], rows[i + 1])
  }

  function Rank(s: WithdrawalState): nat {
    match s
    case Preparing => 0
    case Sending => 1
    case Uncertain => 2
    case Sent => 3
    case FailedWithdrawal => 3
  }

  lemma {:induction false} RanksRise(rows: seq<Withdrawal>, i: nat, j: nat)
    requires Path(rows) && i < j < |rows|
    ensures Rank(rows[i].state) < Rank(rows[j].state)
  {
    assert Step(rows[j - 1], rows[j]);
    if i < j - 1 { RanksRise(rows, i, j - 1); }
  }

  /**
   * Whatever others did between a transition's read and its swap, a row found in the same
   * state again is the very row that was read: a fee or a reference is never overwritten stale.
   */
  lemma SwapSeesWhatItRead(rows: seq<Withdrawal>)
    requires Path(rows) && rows != [] && rows[0].state == rows[|rows| - 1].state
    ensures |rows| == 1
  {
    if |rows| > 1 { RanksRise(rows, 0, |rows| - 1); }
  }

  /** Along any life of a row its fields stay valid, its id and amount never change, and what is written stays written. */
  lemma {:induction false} LifeOfARow(rows: seq<Withdrawal>)
    requires Path(rows) && rows != [] && RowValid(rows[0])
    ensures var last := rows[|rows| - 1];
            && RowValid(last) && last.id == rows[0].id && last.amountSats == rows[0].amountSats
            && (rows[0].feeSats.Some? ==> last.feeSats.Some?)
            && (rows[0].reference.Some? ==> last.reference.Some?)
            && (rows[0].state == Sent || rows[0].state == FailedWithdrawal ==> last == rows[0])
  {
    if |rows| > 1 {
      LifeOfARow(rows[..|rows| - 1]);
      assert Step(rows[|rows| - 2], rows[|rows| - 1]);
    }
  }
}
