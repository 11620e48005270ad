/**
 * Putting the console's markets back to what the configuration implies: the plan, and the
 * statements that carry it out without ever meeting the unique index.
 */
module ServingRevert {
  import opened Util
  import opened ServingRows

  datatype Scope = All | Market(key: Key)

  datatype FieldName = SymbolField | ServesOffer | ServesRfq | RfqSellBase | RfqBuyBase

  datatype Change = Serving(key: Key, field: FieldName) | Override(setting: nat)

  datatype Planned = Planned(key: Key, fields: Fields)

  datatype Plan = Plan(changes: seq<Change>, serving: seq<Planned>, overrideKeys: seq<nat>, revertibleAlone: seq<Key>)

  function InScope(rows: seq<Row>, scope: Scope): seq<Row> {
    match scope
    case All => rows
    case Market(key) => Filter(rows, (row: Row) => row.key == key)
  }

  /** All symbols in the table but the one under `key`. */
  function HeldBesides(rows: seq<Row>, key: Key): set<Symbol> {
    set row | row in rows && row.key != key && row.serving.symbol.Some? :: row.serving.symbol.value
  }

  function TakenBefore(rows: seq<Row>, scope: Scope): set<Symbol> {
    match scope
    case All => {}
    case Market(key) => HeldBesides(rows, key)
  }

  function MovedIn(row: Row, fields: Fields): seq<FieldName> {
    (if row.serving.symbol != fields.symbol then [SymbolField] else [])
    + (if row.serving.servesOffer != fields.servesOffer then [ServesOffer] else [])
    + (if row.serving.servesRfq != fields.servesRfq then [ServesRfq] else [])
    + (if row.serving.rfqSellBase != fields.rfqSellBase then [RfqSellBase] else [])
    + (if row.serving.rfqBuyBase != fields.rfqBuyBase then [RfqBuyBase] else [])
  }

  lemma MovedWhenDifferent(row: Row, fields: Fields)
    ensures MovedIn(row, fields) == [] <==> row.serving == fields
  {
  }

  function ChangesOf(key: Key, moved: seq<FieldName>): (r: seq<Change>)
    ensures |r| == |moved|
  {
    seq(|moved|, i requires 0 <= i < |moved| => Serving(key, moved[i]))
  }

  /** The rows to rewrite, in order: those whose fields are not the derived ones. */
  function Moves(rows: seq<Row>, derived: seq<Fields>): seq<Planned>
    requires |rows| == |derived|
  {
    if rows == [] then []
    else
      var n := |rows| - 1;
      Moves(rows[..n], derived[..n]) + if MovedIn(rows[n], derived[n]) == [] then [] else [Planned(rows[n].key, derived[n])]
  }

  function MoveChanges(rows: seq<Row>, derived: seq<Fields>): seq<Change>
    requires |rows| == |derived|
  {
    if rows == [] then []
    else
      var n := |rows| - 1;
      MoveChanges(rows[..n], derived[..n]) + ChangesOf(rows[n].key, MovedIn(rows[n], derived[n]))
  }

  predicate MovesAlone(rows: seq<Row>, seed: Seed, row: Row) {
    MovedIn(row, ServingFor(row, seed, HeldBesides(rows, row.key))) != []
  }

  /** The rows a revert of their own would change. */
  function Movable(rows: seq<Row>, seed: Seed): (r: seq<Row>)
    ensures forall row :: row in r <==> row in rows && MovesAlone(rows, seed, row)
  {
    Filter(rows, (row: Row) => MovesAlone(rows, seed, row))
  }

  function KeysOf(rows: seq<Row>): (r: seq<Key>)
    ensures |r| == |rows| && forall i :: 0 <= i < |r| ==> r[i] == rows[i].key
  {
    seq(|rows|, i requires 0 <= i < |rows| => rows[i].key)
  }

  function OverrideChanges(keys: seq<nat>): (r: seq<Change>)
    ensures |r| == |keys|
  {
    seq(|keys|, i requires 0 <= i < |keys| => Override(keys[i]))
  }

  function OverridesIn(scope: Scope, overrides: set<nat>, editable: seq<nat>): seq<nat> {
    Filter(editable, (key: nat) => scope == All && key in overrides)
  }

  /** A plan for the scope, unless it is a market the table has no row for. */
  function PlanOf(scope: Scope, rows: seq<Row>, seed: Seed, overrides: set<nat>, editable: seq<nat>): Option<Plan> {
    var inScope := InScope(rows, scope);
    if inScope == [] && scope.Market? then None
    else
      var derived := Derived(inScope, seed, TakenBefore(rows, scope));
      var overrideKeys := OverridesIn(scope, overrides, editable);
      Some(Plan(
        MoveChanges(inScope, derived) + OverrideChanges(overrideKeys),
        Moves(inScope, derived),
        overrideKeys,
        KeysOf(Movable(rows, seed))))
  }

  lemma MovesStep(rows: seq<Row>, derived: seq<Fields>, i: nat)
    requires |rows| == |derived| && i < |rows|
    ensures Moves(rows[..i + 1], derived[..i + 1]) ==
            Moves(rows[..i], derived[..i]) + if MovedIn(rows[i], derived[i]) == [] then [] else [Planned(rows[i].key, derived[i])]
    ensures MoveChanges(rows[..i + 1], derived[..i + 1]) ==
            MoveChanges(rows[..i], derived[..i]) + ChangesOf(rows[i].key, MovedIn(rows[i], derived[i]))
  {
    assert rows[..i + 1][..i] == rows[..i] && derived[..i + 1][..i] == derived[..i];
  }

  lemma {:induction false} DerivedPrefix(rows: seq<Row>, seed: Seed, taken: set<Symbol>, i: nat)
    requires i <= |rows|
    ensures Derived(rows[..i], seed, taken) == Derived(rows, seed, taken)[..i]
  {
    var n := |rows| - 1;
    if i < |rows| {
      DerivedPrefix(rows[..n], seed, taken, i);
      assert rows[..n][..i] == rows[..i];
    } else {
      assert rows[..i] == rows;
    }
  }

  lemma DerivedNext(rows: seq<Row>, seed: Seed, taken: set<Symbol>, i: nat)
    requires i < |rows|
    ensures Derived(rows, seed, taken)[i] == ServingFor(rows[i], seed, taken + Named(Derived(rows, seed, taken)[..i]))
    ensures Named(Derived(rows, seed, taken)[..i + 1]) ==
            Named(Derived(rows, seed, taken)[..i]) +
            if Derived(rows, seed, taken)[i].symbol.Some? then {Derived(rows, seed, taken)[i].symbol.value} else {}
  {
    DerivedPrefix(rows, seed, taken, i + 1);
    DerivedPrefix(rows, seed, taken, i);
    assert rows[..i + 1][..i] == rows[..i];
    var d := Derived(rows, seed, taken);
    assert d[..i + 1] == d[..i] + [d[i]];
  }

  /** The plan, row by row in their order, each derived with the symbols taken so far. */
  method PlanRevert(scope: Scope, rows: seq<Row>, seed: Seed, overrides: set<nat>, editable: seq<nat>) returns (r: Option<Plan>)
    ensures r == PlanOf(scope, rows, seed, overrides, editable)
  {
    hide ServingFor, MovedIn, Derived, InScope, TakenBefore, OverridesIn, MovesAlone, Named, Moves, MoveChanges;
    var inScope := InScope(rows, scope);
    if inScope == [] && scope.Market? { return None; }
    var taken := TakenBefore(rows, scope);
    ghost var taken0, derived := taken, Derived(inScope, seed, taken);
    NothingYet(inScope, derived);
    var changes: seq<Change>, serving: seq<Planned> := [], [];
    for i := 0 to |inScope|
      invariant taken == taken0 + Named(derived[..i])
      invariant serving == Moves(inScope[..i], derived[..i]) && changes == MoveChanges(inScope[..i], derived[..i])
    {
      DerivedNext(inScope, seed, taken0, i);
      MovesStep(inScope, derived, i);
      var row := inScope[i];
      var fields := ServingFor(row, seed, taken);
      if fields.symbol.Some? { taken := taken + {fields.symbol.value}; }
      var moved := MovedIn(row, fields);
      if moved == [] {
        assert ChangesOf(row.key, moved) == [];
        continue;
      }
      serving := serving + [Planned(row.key, fields)];
      changes := changes + ChangesOf(row.key, moved);
    }
    assert inScope[..|inScope|] == inScope && derived[..|inScope|] == derived;
    var overrideKeys := OverridesIn(scope, overrides, editable);
    r := Some(Plan(changes + OverrideChanges(overrideKeys), serving, overrideKeys,
                   KeysOf(Movable(rows, seed))));
  }

  lemma NothingYet(rows: seq<Row>, derived: seq<Fields>)
    requires |rows| == |derived|
    ensures Named(derived[..0]) == {} && Moves(rows[..0], derived[..0]) == [] && MoveChanges(rows[..0], derived[..0]) == []
  {
  }

  // ---- where a revert leaves the rows ----

  /** Every row in scope as the configuration has it, the others as they are. */
  function Goal(scope: Scope, rows: seq<Row>, seed: Seed): (r: seq<Row>)
    ensures |r| == |rows|
  {
    match scope
    case All =>
      var derived := Derived(rows, seed, {});
      seq(|rows|, i requires 0 <= i < |rows| => SetServing(rows[i], derived[i]))
    case Market(key) =>
      seq(|rows|, i requires 0 <= i < |rows| =>
        if rows[i].key == key then SetServing(rows[i], ServingFor(rows[i], seed, HeldBesides(rows, key))) else rows[i])
  }

  /** The revert leaves symbols unique, and every row it plans coherent. */
  lemma GoalUnique(scope: Scope, rows: seq<Row>, seed: Seed)
    requires DistinctKeys(rows) && Unique(rows)
    ensures Unique(Goal(scope, rows, seed)) && DistinctKeys(Goal(scope, rows, seed))
    ensures forall i :: 0 <= i < |rows| && (scope.Market? ==> rows[i].key == scope.key) ==> Coherent(Goal(scope, rows, seed)[i])
  {
    match scope
    case All => DerivedApart(rows, seed, {});
    case Market(key) =>
      forall i | 0 <= i < |rows| && rows[i].key != key && rows[i].serving.symbol.Some?
        ensures rows[i].serving.symbol.value in HeldBesides(rows, key)
      {
        assert rows[i] in rows;
      }
  }

  // ---- the statements ----

  /** The fields planned for `key`, if any. */
  function PlannedFor(serving: seq<Planned>, key: Key): Option<Fields> {
    if serving == [] then None
    else if serving[|serving| - 1].key == key then Some(serving[|serving| - 1].fields)
    else PlannedFor(serving[..|serving| - 1], key)
  }

  /** The plan, where there is one, is what separates the rows from their goal. */
  ghost predicate Leads(rows: seq<Row>, serving: seq<Planned>, goal: seq<Row>) {
    |goal| == |rows|
    && forall i :: 0 <= i < |rows| ==>
         goal[i] == match PlannedFor(serving, rows[i].key) case None => rows[i] case Some(fields) => SetServing(rows[i], fields)
  }

  /** Rows once the first `n` planned ones have lost their symbols and the first `m` have been rewritten. */
  function Midway(rows: seq<Row>, serving: seq<Planned>, n: nat, m: nat): (r: seq<Row>)
    requires m <= n <= |serving|
    ensures |r| == |rows|
  {
    seq(|rows|, i requires 0 <= i < |rows| =>
      if PlannedFor(serving[..m], rows[i].key).Some? then SetServing(rows[i], PlannedFor(serving[..m], rows[i].key).value)
      else if PlannedFor(serving[..n], rows[i].key).Some? then SetSymbol(rows[i], None)
      else rows[i])
  }

  lemma {:induction false} PlannedKey(serving: seq<Planned>, key: Key)
    ensures PlannedFor(serving, key).Some? <==> exists p :: p in serving && p.key == key
  {
    if serving != [] {
      PlannedKey(serving[..|serving| - 1], key);
      assert serving == serving[..|serving| - 1] + [serving[|serving| - 1]];
    }
  }

  lemma {:induction false} MovesFor(rows: seq<Row>, derived: seq<Fields>, i: nat)
    requires |rows| == |derived| && i < |rows| && DistinctKeys(rows)
    ensures PlannedFor(Moves(rows, derived), rows[i].key) == if MovedIn(rows[i], derived[i]) == [] then None else Some(derived[i])
  {
    hide MovedIn;
    var n := |rows| - 1;
    var earlier := Moves(rows[..n], derived[..n]);
    var moves := Moves(rows, derived);
    if MovedIn(rows[n], derived[n]) != [] {
      assert moves[..|moves| - 1] == earlier;
    } else {
      assert moves == earlier;
    }
    if i < n {
      MovesFor(rows[..n], derived[..n], i);
    } else {
      NotMoved(rows[..n], derived[..n], rows[n].key);
    }
  }

  lemma {:induction false} NotMoved(rows: seq<Row>, derived: seq<Fields>, key: Key)
    requires |rows| == |derived| && forall i :: 0 <= i < |rows| ==> rows[i].key != key
    ensures PlannedFor(Moves(rows, derived), key) == None
  {
    hide MovedIn;
    if rows != [] {
      var n := |rows| - 1;
      NotMoved(rows[..n], derived[..n], key);
      var moves := Moves(rows, derived);
      if MovedIn(rows[n], derived[n]) != [] {
        assert moves[..|moves| - 1] == Moves(rows[..n], derived[..n]);
      } else {
        assert moves == Moves(rows[..n], derived[..n]);
      }
    }
  }

  /** A market's own scope is its own row. */
  lemma {:induction false} InScopeAlone(rows: seq<Row>, i: nat)
    requires i < |rows| && DistinctKeys(rows)
    ensures InScope(rows, Market(rows[i].key)) == [rows[i]]
  {
    var n := |rows| - 1;
    var key := rows[i].key;
    assert InScope(rows, Market(key)) == InScope(rows[..n], Market(key)) + if rows[n].key == key then [rows[n]] else [];
    if i < n {
      InScopeAlone(rows[..n], i);
    } else {
      NoneInScope(rows[..n], key);
    }
  }

  lemma {:induction false} NoneInScope(rows: seq<Row>, key: Key)
    requires forall i :: 0 <= i < |rows| ==> rows[i].key != key
    ensures InScope(rows, Market(key)) == []
  {
    if rows != [] {
      var n := |rows| - 1;
      NoneInScope(rows[..n], key);
      assert InScope(rows, Market(key)) == InScope(rows[..n], Market(key));
    }
  }

  /** The plan's statements are exactly what leads from the rows to their goal. */
  lemma PlanLeads(scope: Scope, rows: seq<Row>, seed: Seed, overrides: set<nat>, editable: seq<nat>)
    requires DistinctKeys(rows) && PlanOf(scope, rows, seed, overrides, editable).Some?
    ensures Leads(rows, PlanOf(scope, rows, seed, overrides, editable).value.serving, Goal(scope, rows, seed))
  {
    hide MovedIn, Derived, ServingFor;
    var serving := PlanOf(scope, rows, seed, overrides, editable).value.serving;
    match scope
    case All =>
      var derived := Derived(rows, seed, {});
      forall i | 0 <= i < |rows|
        ensures Goal(scope, rows, seed)[i] ==
                match PlannedFor(serving, rows[i].key) case None => rows[i] case Some(fields) => SetServing(rows[i], fields)
      {
        MovesFor(rows, derived, i);
        MovedWhenDifferent(rows[i], derived[i]);
      }
    case Market(key) => AloneLeads(key, rows, seed, overrides, editable);
  }

  lemma AloneLeads(key: Key, rows: seq<Row>, seed: Seed, overrides: set<nat>, editable: seq<nat>)
    requires DistinctKeys(rows) && PlanOf(Market(key), rows, seed, overrides, editable).Some?
    ensures Leads(rows, PlanOf(Market(key), rows, seed, overrides, editable).value.serving, Goal(Market(key), rows, seed))
  {
    hide MovedIn, ServingFor, Moves, Derived, HeldBesides, OverridesIn, MovesAlone, MoveChanges;
    var inScope := InScope(rows, Market(key));
    assert inScope[0] in inScope;
    var k :| 0 <= k < |rows| && rows[k].key == key;
    InScopeAlone(rows, k);
    assert inScope == [rows[k]];
    var derived := Derived(inScope, seed, HeldBesides(rows, key));
    OneDerived(rows[k], seed, HeldBesides(rows, key));
    MovedWhenDifferent(rows[k], derived[0]);
    MovesFor(inScope, derived, 0);
    forall i | 0 <= i < |rows| && i != k ensures PlannedFor(Moves(inScope, derived), rows[i].key) == None {
      NotMoved(inScope, derived, rows[i].key);
    }
  }

  lemma OneDerived(row: Row, seed: Seed, taken: set<Symbol>)
    ensures Derived([row], seed, taken) == [ServingFor(row, seed, taken)]
  {
    assert [row][..0] == [];
    assert Derived([], seed, taken) == [] && Named([]) == {};
    assert taken + {} == taken;
  }

  /** However far the statements have come, no symbol is carried twice. */
  lemma MidwayUnique(rows: seq<Row>, serving: seq<Planned>, goal: seq<Row>, n: nat, m: nat)
    requires m <= n <= |serving| && (m == 0 || n == |serving|)
    requires Unique(rows) && Unique(goal) && Leads(rows, serving, goal) && DistinctPlan(serving)
    ensures Unique(Midway(rows, serving, n, m))
  {
    var stage := Midway(rows, serving, n, m);
    forall i | 0 <= i < |rows|
      ensures stage[i].serving.symbol == None || stage[i].serving.symbol == if m == 0 then rows[i].serving.symbol else goal[i].serving.symbol
    {
      if m > 0 { PrefixPlan(serving, m, rows[i].key); }
      if n > 0 { PrefixPlan(serving, n, rows[i].key); }
      assert serving[..|serving|] == serving;
    }
  }

  ghost predicate DistinctPlan(serving: seq<Planned>) {
    forall i, j :: 0 <= i < j < |serving| ==> serving[i].key != serving[j].key
  }

  lemma {:induction false} PrefixPlan(serving: seq<Planned>, m: nat, key: Key)
    requires m <= |serving| && DistinctPlan(serving)
    ensures PlannedFor(serving[..m], key).Some? ==> PlannedFor(serving, key) == PlannedFor(serving[..m], key)
  {
    if m < |serving| {
      var n := |serving| - 1;
      assert serving[..n][..m] == serving[..m];
      PrefixPlan(serving[..n], m, key);
      PlannedKey(serving[..n], key);
    } else {
      assert serving[..m] == serving;
    }
  }

  lemma {:induction false} MovesDistinct(rows: seq<Row>, derived: seq<Fields>)
    requires |rows| == |derived| && DistinctKeys(rows)
    ensures DistinctPlan(Moves(rows, derived))
    ensures forall p :: p in Moves(rows, derived) ==> exists i :: 0 <= i < |rows| && rows[i].key == p.key
  {
    if rows != [] {
      var n := |rows| - 1;
      MovesDistinct(rows[..n], derived[..n]);
      forall p | p in Moves(rows[..n], derived[..n]) ensures p.key != rows[n].key && exists i :: 0 <= i < |rows| && rows[i].key == p.key {
        var i :| 0 <= i < n && rows[..n][i].key == p.key;
        assert rows[i].key == p.key;
      }
    }
  }

  lemma PlanDistinct(scope: Scope, rows: seq<Row>, seed: Seed, overrides: set<nat>, editable: seq<nat>)
    requires DistinctKeys(rows) && PlanOf(scope, rows, seed, overrides, editable).Some?
    ensures DistinctPlan(PlanOf(scope, rows, seed, overrides, editable).value.serving)
  {
    hide MovedIn, Derived, ServingFor;
    var inScope := InScope(rows, scope);
    if scope.Market? {
      assert inScope[0] in inScope;
      var k :| 0 <= k < |rows| && rows[k].key == scope.key;
      InScopeAlone(rows, k);
    }
    MovesDistinct(inScope, Derived(inScope, seed, TakenBefore(rows, scope)));
  }

  // ---- carrying it out ----

  function Cleared(overrides: set<nat>, keys: seq<nat>): set<nat> {
    overrides - set key | key in keys
  }

  lemma NulledOne(rows: seq<Row>, serving: seq<Planned>, n: nat)
    requires n < |serving|
    ensures Updated(Midway(rows, serving, n, 0), serving[n].key, (row: Row) => SetSymbol(row, None)) == Midway(rows, serving, n + 1, 0)
  {
    assert serving[..n + 1][..n] == serving[..n];
  }

  lemma RewroteOne(rows: seq<Row>, serving: seq<Planned>, m: nat)
    requires m < |serving| && DistinctPlan(serving)
    ensures Updated(Midway(rows, serving, |serving|, m), serving[m].key, (row: Row) => SetServing(row, serving[m].fields))
            == Midway(rows, serving, |serving|, m + 1)
  {
    assert serving[..m + 1][..m] == serving[..m];
  }

  lemma MidwayEnds(rows: seq<Row>, serving: seq<Planned>, goal: seq<Row>)
    requires Leads(rows, serving, goal)
    ensures Midway(rows, serving, 0, 0) == rows && Midway(rows, serving, |serving|, |serving|) == goal
  {
    assert serving[..|serving|] == serving;
  }

  /**
   * The transaction of a revert: every planned symbol is taken off first, so that one moving
   * between rows is free by the time it is written again. It carries out `serving` and cannot fail.
   */
  method RevertToConfig(table: MarketTable, serving: seq<Planned>, overrides: set<nat>, overrideKeys: seq<nat>, ghost goal: seq<Row>)
    returns (ok: bool, overridesAfter: set<nat>)
    requires table.Valid()
    requires Unique(goal) && Leads(table.rows, serving, goal) && DistinctPlan(serving)
    modifies table
    ensures table.Valid() && old(table.log) <= table.log
    ensures ok && table.rows == goal
    ensures |table.log| == |old(table.log)| + 2 * |serving|
    ensures overridesAfter == Cleared(overrides, overrideKeys)
  {
    hide Midway, PlannedFor, Unique, Updated, Leads, DistinctPlan;
    ghost var rows := table.rows;
    MidwayEnds(rows, serving, goal);
    for n := 0 to |serving|
      invariant table.Valid() && table.rows == Midway(rows, serving, n, 0)
      invariant old(table.log) <= table.log && |table.log| == |old(table.log)| + n
    {
      NulledOne(rows, serving, n);
      MidwayUnique(rows, serving, goal, n + 1, 0);
      var nulled := table.Update(serving[n].key, (row: Row) => SetSymbol(row, None));
    }
    for m := 0 to |serving|
      invariant table.Valid() && table.rows == Midway(rows, serving, |serving|, m)
      invariant old(table.log) <= table.log && |table.log| == |old(table.log)| + |serving| + m
    {
      RewroteOne(rows, serving, m);
      MidwayUnique(rows, serving, goal, |serving|, m + 1);
      var fields := serving[m].fields;
      var written := table.Update(serving[m].key, (row: Row) => SetServing(row, fields));
    }
    ok := true;
    overridesAfter := Cleared(overrides, overrideKeys);
  }

  /** Applying a plan leads from the rows it was made of to what the configuration implies, through unique symbols only. */
  method ApplyPlan(table: MarketTable, scope: Scope, seed: Seed, overrides: set<nat>, editable: seq<nat>)
    returns (plan: Option<Plan>, overridesAfter: set<nat>)
    requires table.Valid()
    modifies table
    ensures table.Valid() && plan == PlanOf(scope, old(table.rows), seed, overrides, editable)
    ensures plan.None? ==> table.rows == old(table.rows) && overridesAfter == overrides
    ensures plan.Some? ==>
              && table.rows == Goal(scope, old(table.rows), seed)
              && overridesAfter == Cleared(overrides, plan.value.overrideKeys)
  {
    hide Goal, PlanOf, Leads, DistinctPlan, Unique;
    plan := PlanRevert(scope, table.rows, seed, overrides, editable);
    overridesAfter := overrides;
    if plan.Some? {
      PlanLeads(scope, table.rows, seed, overrides, editable);
      PlanDistinct(scope, table.rows, seed, overrides, editable);
      GoalOf(table, scope, seed);
      var ok;
      ok, overridesAfter := RevertToConfig(table, plan.value.serving, overrides, plan.value.overrideKeys,
                                           Goal(scope, table.rows, seed));
    }
  }

  lemma GoalOf(table: MarketTable, scope: Scope, seed: Seed)
    requires table.Valid()
    ensures Unique(Goal(scope, table.rows, seed))
  {
    GoalUnique(scope, table.rows, seed);
  }

  // ---- planning again ----

  lemma {:induction false} NothingMoves(rows: seq<Row>, derived: seq<Fields>)
    requires |rows| == |derived|
    ensures Moves(rows, derived) == [] <==> forall i :: 0 <= i < |rows| ==> rows[i].serving == derived[i]
    ensures MoveChanges(rows, derived) == [] <==> Moves(rows, derived) == []
  {
    hide MovedIn;
    if rows != [] {
      var n := |rows| - 1;
      NothingMoves(rows[..n], derived[..n]);
      MovedWhenDifferent(rows[n], derived[n]);
    }
  }

  lemma OthersHold(rows: seq<Row>, goal: seq<Row>, key: Key)
    requires |goal| == |rows| && forall i :: 0 <= i < |rows| ==>
               goal[i].key == rows[i].key && (rows[i].key != key ==> goal[i] == rows[i])
    ensures HeldBesides(goal, key) == HeldBesides(rows, key)
  {
    forall s ensures s in HeldBesides(goal, key) <==> s in HeldBesides(rows, key) {
      if s in HeldBesides(goal, key) {
        var row :| row in goal && row.key != key && row.serving.symbol == Some(s);
        var i :| 0 <= i < |goal| && goal[i] == row;
        assert rows[i] in rows;
      }
      if s in HeldBesides(rows, key) {
        var row :| row in rows && row.key != key && row.serving.symbol == Some(s);
        var i :| 0 <= i < |rows| && rows[i] == row;
        assert goal[i] in goal;
      }
    }
  }

  /** Planned again after it was applied, a revert changes nothing. */
  lemma PlanAgainIsEmpty(scope: Scope, rows: seq<Row>, seed: Seed, overrides: set<nat>, editable: seq<nat>)
    requires DistinctKeys(rows) && PlanOf(scope, rows, seed, overrides, editable).Some?
    ensures var plan := PlanOf(scope, rows, seed, overrides, editable).value;
            var again := PlanOf(scope, Goal(scope, rows, seed), seed, Cleared(overrides, plan.overrideKeys), editable);
            again.Some? && again.value.changes == [] && again.value.serving == [] && again.value.overrideKeys == []
  {
    hide MovedIn, ServingFor, Moves, MoveChanges, OverridesIn, MovesAlone, Named, HeldBesides;
    var goal := Goal(scope, rows, seed);
    var plan := PlanOf(scope, rows, seed, overrides, editable).value;
    NoneLeft(scope, overrides, editable);
    assert OverrideChanges([]) == [];
    match scope
    case All =>
      DerivedByLegs(rows, goal, seed, {});
      NothingMoves(goal, Derived(goal, seed, {}));
    case Market(key) =>
      AloneAgain(key, rows, seed);
  }

  lemma NoneLeft(scope: Scope, overrides: set<nat>, editable: seq<nat>)
    ensures OverridesIn(scope, Cleared(overrides, OverridesIn(scope, overrides, editable)), editable) == []
  {
    var left := OverridesIn(scope, Cleared(overrides, OverridesIn(scope, overrides, editable)), editable);
    SomeMember(left);
  }

  lemma NoOverridesAlone(key: Key, overrides: set<nat>, editable: seq<nat>)
    ensures OverridesIn(Market(key), overrides, editable) == []
  {
    var keys := OverridesIn(Market(key), overrides, editable);
    SomeMember(keys);
  }

  lemma AloneAgain(key: Key, rows: seq<Row>, seed: Seed)
    requires DistinctKeys(rows) && InScope(rows, Market(key)) != []
    ensures var goal := Goal(Market(key), rows, seed);
            var inScope := InScope(goal, Market(key));
            var derived := Derived(inScope, seed, HeldBesides(goal, key));
            inScope != [] && Moves(inScope, derived) == [] && MoveChanges(inScope, derived) == []
  {
    hide MovedIn, ServingFor, Moves, MoveChanges;
    var goal := Goal(Market(key), rows, seed);
    assert InScope(rows, Market(key))[0] in InScope(rows, Market(key));
    var k :| 0 <= k < |rows| && rows[k].key == key;
    InScopeAlone(goal, k);
    OthersHold(rows, goal, key);
    OneDerived(goal[k], seed, HeldBesides(goal, key));
    SameServing(rows[k], goal[k], seed, HeldBesides(rows, key));
    NothingMoves([goal[k]], [ServingFor(goal[k], seed, HeldBesides(goal, key))]);
  }

  /** A market is listed as revertible alone exactly when the plan made for it alone changes something. */
  lemma RevertibleAlone(rows: seq<Row>, seed: Seed, overrides: set<nat>, editable: seq<nat>, scope: Scope, i: nat)
    requires DistinctKeys(rows) && i < |rows| && PlanOf(scope, rows, seed, overrides, editable).Some?
    ensures PlanOf(Market(rows[i].key), rows, seed, overrides, editable).Some?
    ensures rows[i].key in PlanOf(scope, rows, seed, overrides, editable).value.revertibleAlone <==>
            PlanOf(Market(rows[i].key), rows, seed, overrides, editable).value.changes != []
  {
    hide MovedIn, ServingFor, Moves, MoveChanges, OverridesIn, Derived, HeldBesides, Movable;
    var key := rows[i].key;
    InScopeAlone(rows, i);
    OneDerived(rows[i], seed, HeldBesides(rows, key));
    var fields := ServingFor(rows[i], seed, HeldBesides(rows, key));
    NothingMoves([rows[i]], [fields]);
    MovedWhenDifferent(rows[i], fields);
    NoOverridesAlone(key, overrides, editable);
    var movable := Movable(rows, seed);
    assert key in KeysOf(movable) <==> MovesAlone(rows, seed, rows[i]) by {
      if MovesAlone(rows, seed, rows[i]) {
        assert rows[i] in movable;
        var k :| 0 <= k < |movable| && movable[k] == rows[i];
        assert KeysOf(movable)[k] == key;
      }
      if key in KeysOf(movable) {
        var k :| 0 <= k < |movable| && KeysOf(movable)[k] == key;
        assert movable[k] in movable;
        var j :| 0 <= j < |rows| && rows[j] == movable[k];
      }
    }
  }

  // ---- the seed ----

  /** Rows once the first `n` have been seeded. */
  function Seeded(rows: seq<Row>, seed: Seed, n: nat): (r: seq<Row>)
    requires n <= |rows|
    ensures |r| == |rows|
  {
    var derived := Derived(rows, seed, {});
    seq(|rows|, i requires 0 <= i < |rows| => if i < n then SetServing(rows[i], derived[i]) else rows[i])
  }

  /** A row to be seeded later still carries the symbol an earlier one is given. */
  ghost predicate MeetsItself(rows: seq<Row>, seed: Seed) {
    exists i, j :: 0 <= i < j < |rows| && Derived(rows, seed, {})[i].symbol.Some?
                   && rows[j].serving.symbol == Derived(rows, seed, {})[i].symbol
  }

  /** A row from the `n`th on still carries a symbol given to one before it. */
  ghost predicate MeetsAt(rows: seq<Row>, seed: Seed, n: nat) {
    exists i, j :: 0 <= i < n <= j < |rows| && Derived(rows, seed, {})[i].symbol.Some?
                   && rows[j].serving.symbol == Derived(rows, seed, {})[i].symbol
  }

  lemma SeededUnique(rows: seq<Row>, seed: Seed, n: nat)
    requires Unique(rows) && n <= |rows|
    ensures Unique(Seeded(rows, seed, n)) <==>
            !MeetsAt(rows, seed, n)
  {
    DerivedApart(rows, seed, {});
    var derived, r := Derived(rows, seed, {}), Seeded(rows, seed, n);
    if Unique(r) {
      forall i, j | 0 <= i < n <= j < |rows| && derived[i].symbol.Some? ensures rows[j].serving.symbol != derived[i].symbol {
        assert r[i].serving.symbol == derived[i].symbol && r[j] == rows[j];
      }
    }
  }

  lemma SeedEnds(rows: seq<Row>, seed: Seed)
    requires Unique(rows)
    ensures Seeded(rows, seed, 0) == rows
    ensures !MeetsItself(rows, seed) ==> forall n :: 0 <= n <= |rows| ==> Unique(Seeded(rows, seed, n))
    ensures (forall n :: 0 <= n <= |rows| ==> Unique(Seeded(rows, seed, n))) ==> !MeetsItself(rows, seed)
  {
    forall n | 0 <= n <= |rows|
      ensures !MeetsItself(rows, seed) ==> Unique(Seeded(rows, seed, n))
      ensures Unique(Seeded(rows, seed, n)) ==> !MeetsAt(rows, seed, n)
    {
      SeededUnique(rows, seed, n);
    }
    MeetsSomewhere(rows, seed);
    SeededNone(rows, seed);
  }

  lemma MeetsSomewhere(rows: seq<Row>, seed: Seed)
    ensures MeetsItself(rows, seed) ==> exists n :: 0 <= n <= |rows| && MeetsAt(rows, seed, n)
  {
    if MeetsItself(rows, seed) {
      var i, j :| 0 <= i < j < |rows| && Derived(rows, seed, {})[i].symbol.Some?
                  && rows[j].serving.symbol == Derived(rows, seed, {})[i].symbol;
      assert MeetsAt(rows, seed, j);
    }
  }

  lemma SeededNone(rows: seq<Row>, seed: Seed)
    ensures Seeded(rows, seed, 0) == rows
  {
  }

  lemma SeededOne(rows: seq<Row>, seed: Seed, n: nat)
    requires DistinctKeys(rows) && n < |rows|
    ensures Updated(Seeded(rows, seed, n), rows[n].key, (row: Row) => SetServing(row, Derived(rows, seed, {})[n]))
            == Seeded(rows, seed, n + 1)
  {
    hide Derived;
  }

  /**
   * The one-time seed writes the rows in order without taking any symbol off first, so it fails,
   * leaving nothing behind, exactly when a later row still carries a symbol an earlier one is given.
   */
  method SeedServing(table: MarketTable, seed: Seed) returns (ok: bool)
    requires table.Valid()
    modifies table
    ensures table.Valid()
    ensures ok <==> !MeetsItself(old(table.rows), seed)
    ensures table.rows == if ok then Seeded(old(table.rows), seed, |old(table.rows)|) else old(table.rows)
  {
    hide Derived, Seeded, Unique, Updated, ServingFor, MeetsItself, Named;
    var rows := table.rows;
    var taken: set<Symbol> := {};
    ghost var derived := Derived(rows, seed, {});
    SeedEnds(rows, seed);
    NoneNamed(derived);
    for n := 0 to |rows|
      invariant table.Valid() && table.rows == Seeded(rows, seed, n) && Unique(rows) && DistinctKeys(rows)
      invariant taken == Named(derived[..n])
      invariant forall k :: 0 <= k <= n ==> Unique(Seeded(rows, seed, k))
    {
      DerivedNext(rows, seed, {}, n);
      assert {} + taken == taken;
      SeededOne(rows, seed, n);
      var fields := ServingFor(rows[n], seed, taken);
      if fields.symbol.Some? { taken := taken + {fields.symbol.value}; }
      var written := table.Update(rows[n].key, (row: Row) => SetServing(row, fields));
      if !written {
        table.Rollback(rows);
        return false;
      }
    }
    ok := true;
  }

  lemma NoneNamed(derived: seq<Fields>)
    ensures Named(derived[..0]) == {}
  {
  }

  /** With the column defaults, which carry no symbol, the seed never fails. */
  lemma FreshColumnsSeed(rows: seq<Row>, seed: Seed)
    requires forall row :: row in rows ==> row.serving.symbol.None?
    ensures !MeetsItself(rows, seed)
  {
  }

  const DEFAULTS := Fields(None, false, true, true, true)
  const UNNAMED := [Row(1, Some(10), None, DEFAULTS), Row(2, Some(20), None, DEFAULTS)]

  /** The configuration names the first asset what the second is called when it has no name. */
  const CROSSED := Seed([], [Token(10, 20, true, true), Token(20, 30, true, true)], (asset: AssetId) => asset)

  /** A store opened without the seed has its rows named by the repair, and seeding it later can fail on that. */
  lemma SeedAfterRepairCanFail()
    ensures !MeetsItself(UNNAMED, CROSSED) && MeetsItself(Repair(UNNAMED, CROSSED.stem), CROSSED)
  {
    var rows := Repair(UNNAMED, CROSSED.stem);
    var first, second := SetSymbol(UNNAMED[0], Some(10)), SetSymbol(UNNAMED[1], Some(20));
    assert UNNAMED[..1] == [UNNAMED[0]] && [UNNAMED[0]][..0] == [];
    assert SymbolsOf(UNNAMED) == {};
    assert RepairRow(UNNAMED[0], CROSSED.stem, {}) == first && RepairRow(UNNAMED[1], CROSSED.stem, {10}) == second;
    NamedOne(UNNAMED[0], {}, CROSSED.stem);
    assert rows == [first, second];
    DerivedNext(rows, CROSSED, {}, 0);
    assert Named(Derived(rows, CROSSED, {})[..0]) == {};
    assert Derived(rows, CROSSED, {})[0].symbol == Some(20) && rows[1].serving.symbol == Some(20);
  }

  lemma NamedOne(row: Row, held: set<Symbol>, stem: AssetId -> Symbol)
    ensures Repaired([row], stem, held) ==
            ([RepairRow(row, stem, held)], held + TakenBy(row, RepairRow(row, stem, held)))
  {
    assert [row][..0] == [];
    assert Repaired([], stem, held) == ([], held);
    assert [] + [RepairRow(row, stem, held)] == [RepairRow(row, stem, held)];
  }
}
