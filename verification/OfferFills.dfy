/**
 * The durable state of an offer fill: rows moved only by compare-and-swap, the latch that is
 * won right before a submission, and what no sequence of such writes, by any number of
 * processes and with crashes anywhere between them, can break.
 */
module OfferFills {
  import opened Util

  type Id = nat

  /** The funded output an offer stands at. */
  datatype Outpoint = Outpoint(txid: nat, vout: nat)

  datatype FillState = Fillable | Filling | Filled | Lost | Refused | Stuck

  /** How far the attempt that holds a `Filling` row got. */
  datatype FillPhase = NoPhase | Selecting | Submitting

  /** What was priced: the legs and their amounts, `None` standing for BTC. */
  datatype Terms = Terms(wantAsset: Option<nat>, wantAmount: int, offerAsset: Option<nat>, offerAmount: int)

  datatype Row = Row(id: Id, outpoint: Outpoint, terms: Terms, state: FillState, phase: FillPhase,
                     fillTxid: Option<nat>)

  predicate Legal(from: FillState, to: FillState) {
    match from
    case Fillable => to == Filling || to == Refused || to == Lost
    case Filling => to == Filled || to == Lost || to == Stuck
    case _ => false
  }

  predicate IsLive(row: Row) {
    row.state == Fillable || row.state == Filling || row.state == Filled
  }

  predicate IsTerminal(state: FillState) {
    state != Fillable && state != Filling
  }

  // ---- the writes, as functions of the rows ----

  predicate Holds(rows: map<Id, Row>, id: Id, state: FillState) {
    id in rows && rows[id].state == state
  }

  predicate HoldsSelecting(rows: map<Id, Row>, id: Id) {
    Holds(rows, id, Filling) && rows[id].phase == Selecting
  }

  /** What a change of state can write along with it. */
  datatype Fields = Fields(phase: Option<FillPhase>, fillTxid: Option<nat>)

  const NOTHING := Fields(None, None)

  function Moved(row: Row, to: FillState, fields: Fields): Row {
    row.(state := to,
         phase := if fields.phase.Some? then fields.phase.value else row.phase,
         fillTxid := if fields.fillTxid.Some? then fields.fillTxid else row.fillTxid)
  }

  function Reverted(row: Row): Row {
    row.(state := Fillable, phase := NoPhase)
  }

  function Latched(row: Row): Row {
    row.(phase := Submitting)
  }

  predicate LiveAt(rows: map<Id, Row>, outpoint: Outpoint) {
    exists id :: id in rows && rows[id].outpoint == outpoint && IsLive(rows[id])
  }

  // ---- steps ----

  /**
   * The store, with what only the world knows: who has won the latch and may still submit,
   * and what has been submitted.
   */
  datatype World = World(rows: map<Id, Row>, latched: multiset<Id>, submitted: multiset<Id>)

  datatype Action =
    | Insert(row: Row)
    | Move(id: Id, from: FillState, to: FillState, fields: Fields)
    | Revert(id: Id)
    | Latch(id: Id)
    | Submit(id: Id)
    | Vanish(id: Id)   // the process that won the latch is gone before it submitted

  ghost predicate Next(w: World, a: Action, v: World) {
    match a
    case Insert(row) =>
      row.id !in w.rows && row.state == Fillable && row.phase == NoPhase && !LiveAt(w.rows, row.outpoint)
      && v == w.(rows := w.rows[row.id := row])
    case Move(id, from, to, fields) =>
      Legal(from, to) && Holds(w.rows, id, from) && v == w.(rows := w.rows[id := Moved(w.rows[id], to, fields)])
    case Revert(id) =>
      HoldsSelecting(w.rows, id) && v == w.(rows := w.rows[id := Reverted(w.rows[id])])
    case Latch(id) =>
      HoldsSelecting(w.rows, id)
      && v == w.(rows := w.rows[id := Latched(w.rows[id])], latched := w.latched + multiset{id})
    case Submit(id) =>
      id in w.latched && v == w.(latched := w.latched - multiset{id}, submitted := w.submitted + multiset{id})
    case Vanish(id) =>
      id in w.latched && v == w.(latched := w.latched - multiset{id})
  }

  ghost predicate Step(w: World, v: World) {
    exists a :: Next(w, a, v)
  }

  /** Worlds one after another, from the first write to the last, whoever wrote and whoever crashed. */
  ghost predicate Path(worlds: seq<World>) {
    forall i, j :: 0 <= i < |worlds| && j == i + 1 < |worlds| ==> Step(worlds[i], worlds[j])
  }

  // ---- what every step keeps ----

  /** A row past the point where a submission could have been made. */
  predicate Burnt(row: Row) {
    IsTerminal(row.state) || (row.state == Filling && row.phase == Submitting)
  }

  ghost predicate Keyed(rows: map<Id, Row>) {
    forall id :: id in rows ==> rows[id].id == id
  }

  ghost predicate OneLiveEach(rows: map<Id, Row>) {
    forall a, b :: a in rows && b in rows && IsLive(rows[a]) && IsLive(rows[b]) && rows[a].outpoint == rows[b].outpoint ==> a == b
  }

  /** Each row may be submitted, or was, at most once, and then it is burnt. */
  ghost predicate Safe(w: World) {
    && Keyed(w.rows)
    && OneLiveEach(w.rows)
    && forall id :: SafeAt(w, id)
  }

  lemma StepOneLive(w: World, a: Action, v: World)
    requires Keyed(w.rows) && OneLiveEach(w.rows) && Next(w, a, v)
    ensures Keyed(v.rows) && OneLiveEach(v.rows)
  {
    match a
    case Insert(row) =>
      forall id | id in w.rows && IsLive(w.rows[id]) ensures w.rows[id].outpoint != row.outpoint {
      }
    case Move(id, from, to, fields) => assert IsLive(w.rows[id]);
    case Revert(id) => assert IsLive(w.rows[id]);
    case Latch(id) => assert IsLive(w.rows[id]);
    case _ =>
  }

  /** One row's account: at most one latch or submission, and then it is burnt. */
  ghost predicate SafeAt(w: World, id: Id) {
    && w.latched[id] + w.submitted[id] <= 1
    && (id in w.latched || id in w.submitted ==> id in w.rows && Burnt(w.rows[id]))
  }

  lemma StepSafeAt(w: World, a: Action, v: World, id: Id)
    requires SafeAt(w, id) && Next(w, a, v)
    ensures SafeAt(v, id)
  {
    if a.Latch? && a.id == id {
      assert !Burnt(w.rows[id]);
    }
  }

  lemma StepSafe(w: World, a: Action, v: World)
    requires Safe(w) && Next(w, a, v)
    ensures Safe(v)
  {
    hide Next, SafeAt, Keyed, OneLiveEach;
    StepOneLive(w, a, v);
    forall id ensures SafeAt(v, id) { StepSafeAt(w, a, v, id); }
  }

  /** A burnt row stays burnt, keeps its outpoint and terms, and is never fillable again. */
  lemma StepBurnt(w: World, a: Action, v: World, id: Id)
    requires Next(w, a, v) && id in w.rows
    ensures id in v.rows && v.rows[id].outpoint == w.rows[id].outpoint && v.rows[id].terms == w.rows[id].terms
    ensures Burnt(w.rows[id]) ==> Burnt(v.rows[id])
    ensures w.submitted <= v.submitted
  {
  }

  lemma {:induction false} PathSafe(worlds: seq<World>, i: nat)
    requires Path(worlds) && i < |worlds| && Safe(worlds[0])
    ensures Safe(worlds[i])
  {
    hide Safe, Next;
    if i > 0 {
      PathSafe(worlds, i - 1);
      assert Step(worlds[i - 1], worlds[i]);
      var a :| Next(worlds[i - 1], a, worlds[i]);
      StepSafe(worlds[i - 1], a, worlds[i]);
    }
  }

  lemma {:induction false} PathBurnt(worlds: seq<World>, i: nat, j: nat, id: Id)
    requires Path(worlds) && i <= j < |worlds| && id in worlds[i].rows
    ensures id in worlds[j].rows && worlds[j].rows[id].outpoint == worlds[i].rows[id].outpoint
            && worlds[j].rows[id].terms == worlds[i].rows[id].terms
    ensures Burnt(worlds[i].rows[id]) ==> Burnt(worlds[j].rows[id])
  {
    hide Next, Burnt;
    if i < j {
      PathBurnt(worlds, i, j - 1, id);
      assert Step(worlds[j - 1], worlds[j]);
      var a :| Next(worlds[j - 1], a, worlds[j]);
      StepBurnt(worlds[j - 1], a, worlds[j], id);
    }
  }

  const EMPTY := World(map[], multiset{}, multiset{})

  /**
   * From an empty store, at every moment: no intent is submitted twice, an outpoint has at most
   * one live intent, and an intent that may have been submitted is never fillable from then on.
   */
  lemma NoDoubleFill(worlds: seq<World>, i: nat, j: nat, id: Id)
    requires Path(worlds) && worlds != [] && worlds[0] == EMPTY && i <= j < |worlds|
    ensures worlds[j].submitted[id] <= 1 && OneLiveEach(worlds[j].rows)
    ensures id in worlds[i].latched || id in worlds[i].submitted ==>
              id in worlds[j].rows && worlds[j].rows[id].state != Fillable
              && (worlds[j].rows[id].state == Filling ==> worlds[j].rows[id].phase == Submitting)
  {
    assert Safe(EMPTY);
    PathSafe(worlds, i);
    PathSafe(worlds, j);
    assert SafeAt(worlds[i], id) && SafeAt(worlds[j], id);
    if id in worlds[i].latched || id in worlds[i].submitted {
      PathBurnt(worlds, i, j, id);
    }
  }

  /** The deposit at an outpoint is spent by at most one live intent's submission. */
  lemma OneSubmissionWhileLive(worlds: seq<World>, j: nat, a: Id, b: Id)
    requires Path(worlds) && worlds != [] && worlds[0] == EMPTY && j < |worlds|
    requires a in worlds[j].rows && b in worlds[j].rows && worlds[j].rows[a].outpoint == worlds[j].rows[b].outpoint
    requires IsLive(worlds[j].rows[a]) && IsLive(worlds[j].rows[b])
    ensures a == b && worlds[j].submitted[a] <= 1
  {
    NoDoubleFill(worlds, j, j, a);
  }

  lemma PathExtends(worlds: seq<World>, w: World)
    requires Path(worlds) && worlds != [] && Step(worlds[|worlds| - 1], w)
    ensures Path(worlds + [w])
  {
    var all := worlds + [w];
    forall i | 0 <= i < |all| - 1 ensures Step(all[i], all[i + 1]) {
      if i == |worlds| - 1 {
        assert all[i] == worlds[i] && all[i + 1] == w;
      } else {
        assert all[i] == worlds[i] && all[i + 1] == worlds[i + 1];
      }
    }
  }

  lemma PathPrefix(worlds: seq<World>, k: nat)
    requires Path(worlds) && k < |worlds|
    ensures Path(worlds[..k + 1])
  {
  }

  /**
   * A crash after any write: the latches of the process that died vanish, and the world a new
   * process opens its store on continues the same path.
   */
  lemma {:induction false} CrashAndReopen(worlds: seq<World>, k: nat) returns (reopened: seq<World>)
    requires Path(worlds) && k < |worlds|
    ensures worlds[..k + 1] <= reopened && Path(reopened)
    ensures reopened[|reopened| - 1] == worlds[k].(latched := multiset{})
  {
    PathPrefix(worlds, k);
    reopened := worlds[..k + 1];
    while reopened[|reopened| - 1].latched != multiset{}
      invariant reopened != [] && worlds[..k + 1] <= reopened && Path(reopened)
      invariant reopened[|reopened| - 1].(latched := multiset{}) == worlds[k].(latched := multiset{})
      decreases |reopened[|reopened| - 1].latched|
    {
      var w := reopened[|reopened| - 1];
      var id :| id in w.latched;
      var v := w.(latched := w.latched - multiset{id});
      assert Next(w, Vanish(id), v);
      PathExtends(reopened, v);
      reopened := reopened + [v];
    }
  }

  /** The new process's own log then runs on from there. */
  lemma LogsJoin(earlier: seq<World>, log: seq<World>)
    requires Path(earlier) && Path(log) && earlier != [] && log != [] && earlier[|earlier| - 1] == log[0]
    ensures Path(earlier + log[1..])
  {
    var all := earlier + log[1..];
    forall i, j | 0 <= i < |all| && j == i + 1 < |all| ensures Step(all[i], all[j]) {
      if i < |earlier| - 1 {
        assert all[i] == earlier[i] && all[j] == earlier[j];
      } else {
        assert all[i] == log[i - |earlier| + 1] && all[j] == log[j - |earlier| + 1];
      }
    }
  }

  // ---- the store ----

  class OfferFillStore {
    var rows: map<Id, Row>
    /** Ids by creation. */
    var order: seq<Id>
    ghost var latched: multiset<Id>
    ghost var submitted: multiset<Id>
    /** Every world since this store was opened; a crash may follow any of them. */
    ghost var log: seq<World>

    ghost function Now(): World
      reads this
    {
      World(rows, latched, submitted)
    }

    ghost predicate Valid()
      reads this
    {
      && log != [] && log[|log| - 1] == Now() && Path(log) && Safe(log[0])
      && (forall id :: id in order <==> id in rows)
      && Distinct(order)
    }

    /** Opening what an earlier process left; nothing this process latched can be under way. */
    constructor (w: World, order: seq<Id>)
      requires Safe(w) && (forall id :: id in order <==> id in w.rows) && Distinct(order)
      ensures Valid() && Now() == w && log == [w] && this.order == order
    {
      rows, latched, submitted := w.rows, w.latched, w.submitted;
      log := [w];
      this.order := order;
    }

    ghost method Log(a: Action, before: World)
      requires log != [] && log[|log| - 1] == before && Path(log) && Next(before, a, Now())
      modifies this`log
      ensures log == old(log) + [Now()] && Path(log)
    {
      assert Step(before, Now());
      PathExtends(log, Now());
      log := log + [Now()];
    }

    /** The unique index on live outpoints, and the primary key, refuse a second intent. */
    method InsertIntent(id: Id, outpoint: Outpoint, terms: Terms) returns (inserted: bool)
      requires Valid()
      modifies this
      ensures Valid()
      ensures inserted <==> id !in old(rows) && !LiveAt(old(rows), outpoint)
      ensures latched == old(latched) && submitted == old(submitted)
      ensures !inserted ==> rows == old(rows) && order == old(order) && log == old(log)
      ensures inserted ==>
                && rows == old(rows)[id := Row(id, outpoint, terms, Fillable, NoPhase, None)]
                && order == old(order) + [id] && log == old(log) + [Now()]
    {
      if id in rows { return false; }
      var clash := FindLiveByOutpoint(outpoint);
      if clash.Some? { return false; }
      ghost var before := Now();
      var row := Row(id, outpoint, terms, Fillable, NoPhase, None);
      rows := rows[id := row];
      order := order + [id];
      Log(Insert(row), before);
      inserted := true;
    }

    method FindLiveByOutpoint(outpoint: Outpoint) returns (r: Option<Row>)
      requires Valid()
      ensures r.Some? <==> LiveAt(rows, outpoint)
      ensures r.Some? ==> r.value.id in rows && rows[r.value.id] == r.value && r.value.outpoint == outpoint && IsLive(r.value)
    {
      SafeNow();
      r := None;
      for i := 0 to |order|
        invariant r.None? && forall k :: 0 <= k < i ==> !(rows[order[k]].outpoint == outpoint && IsLive(rows[order[k]]))
      {
        assert order[i] in rows;
        var row := rows[order[i]];
        if row.outpoint == outpoint && IsLive(row) { return Some(row); }
      }
      forall id | id in rows ensures !(rows[id].outpoint == outpoint && IsLive(rows[id])) {
        assert id in order;
      }
    }

    lemma SafeNow()
      requires Valid()
      ensures Safe(Now())
    {
      PathSafe(log, |log| - 1);
    }

    /** All rows short of an end state, in the order they were filed. */
    method ListNonTerminal() returns (r: seq<Row>)
      requires Valid()
      ensures r == Listed(rows, order)
    {
      r := [];
      for i := 0 to |order|
        invariant r == Listed(rows, order[..i])
      {
        assert order[..i + 1][..i] == order[..i];
        assert order[i] in rows;
        if !IsTerminal(rows[order[i]].state) { r := r + [rows[order[i]]]; }
      }
      assert order[..|order|] == order;
    }

    /** Moves the row only out of `from`, and says whether it did. */
    method Transition(id: Id, from: FillState, to: FillState, fields: Fields) returns (moved: bool)
      requires Valid() && Legal(from, to)
      modifies this`rows, this`log
      ensures Valid()
      ensures moved <==> Holds(old(rows), id, from)
      ensures moved ==> rows == old(rows)[id := Moved(old(rows)[id], to, fields)] && log == old(log) + [Now()]
      ensures !moved ==> rows == old(rows) && log == old(log)
    {
      moved := id in rows && rows[id].state == from;
      if moved {
        ghost var before := Now();
        rows := rows[id := Moved(rows[id], to, fields)];
        Log(Move(id, from, to, fields), before);
      }
    }

    /** Undo a claim; it takes only while the row is in `Filling` and still `Selecting`. */
    method RevertUnsubmitted(id: Id) returns (moved: bool)
      requires Valid()
      modifies this`rows, this`log
      ensures Valid()
      ensures moved <==> HoldsSelecting(old(rows), id)
      ensures moved ==> rows == old(rows)[id := Reverted(old(rows)[id])] && log == old(log) + [Now()]
      ensures !moved ==> rows == old(rows) && log == old(log)
    {
      moved := id in rows && rows[id].state == Filling && rows[id].phase == Selecting;
      if moved {
        ghost var before := Now();
        rows := rows[id := Reverted(rows[id])];
        Log(Revert(id), before);
      }
    }

    /** From `Selecting` to `Submitting`: a claim can pass here once, and cannot be undone afterwards. */
    method MarkSubmitting(id: Id) returns (won: bool)
      requires Valid()
      modifies this`rows, this`latched, this`log
      ensures Valid()
      ensures won <==> HoldsSelecting(old(rows), id)
      ensures won ==> rows == old(rows)[id := Latched(old(rows)[id])] && latched == old(latched) + multiset{id}
                      && log == old(log) + [Now()]
      ensures !won ==> rows == old(rows) && latched == old(latched) && log == old(log)
    {
      won := id in rows && rows[id].state == Filling && rows[id].phase == Selecting;
      if won {
        ghost var before := Now();
        rows := rows[id := Latched(rows[id])];
        latched := latched + multiset{id};
        Log(Latch(id), before);
      }
    }

    /** Records that the fill of a row was handed to the network, using up its latch. */
    ghost method Submitted(id: Id)
      requires Valid() && id in latched
      modifies this`latched, this`submitted, this`log
      ensures Valid() && submitted == old(submitted) + multiset{id} && latched == old(latched) - multiset{id}
      ensures log == old(log) + [Now()]
    {
      var before := Now();
      latched := latched - multiset{id};
      submitted := submitted + multiset{id};
      Log(Submit(id), before);
    }
  }

  function Listed(rows: map<Id, Row>, order: seq<Id>): (r: seq<Row>)
    ensures forall row :: row in r ==> exists id :: id in order && id in rows && rows[id] == row && !IsTerminal(row.state)
  {
    if order == [] then []
    else
      var id := order[|order| - 1];
      Listed(rows, order[..|order| - 1]) + if id in rows && !IsTerminal(rows[id].state) then [rows[id]] else []
  }
}
