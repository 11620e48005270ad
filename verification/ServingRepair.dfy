/**
 * The boot repair: whatever wrote the rows, it leaves symbols unique at every statement, opens
 * nothing, and settles after one pass, or two where it named a row that was shut anyway.
 */
module ServingRepair {
  import opened Util
  import opened ServingRows

  /** The row `r` is what the repair makes of `row` with some set of symbols taken by then. */
  ghost predicate RepairOf(row: Row, stem: AssetId -> Symbol, held: set<Symbol>, taken: set<Symbol>, r: Row) {
    exists t :: held <= t <= taken && r == RepairRow(row, stem, t)
  }

  /** The repair gave the row a symbol it did not have. */
  predicate NewlyNamed(row: Row, r: Row) {
    row.serving.symbol.None? && r.serving.symbol.Some?
  }

  ghost predicate RepairedWell(rows: seq<Row>, stem: AssetId -> Symbol, held: set<Symbol>, r: seq<Row>, taken: set<Symbol>)
    requires |r| == |rows|
  {
    && held <= taken
    && (forall i :: 0 <= i < |rows| ==> RepairOf(rows[i], stem, held, taken, r[i]))
    && (forall i :: 0 <= i < |rows| && NewlyNamed(rows[i], r[i]) ==> r[i].serving.symbol.value in taken - held)
    && (forall i, j :: 0 <= i < j < |rows| && NewlyNamed(rows[i], r[i]) && NewlyNamed(rows[j], r[j]) ==>
          r[j].serving.symbol != r[i].serving.symbol)
  }

  lemma {:induction false} RepairWell(rows: seq<Row>, stem: AssetId -> Symbol, held: set<Symbol>)
    ensures RepairedWell(rows, stem, held, Repaired(rows, stem, held).0, Repaired(rows, stem, held).1)
  {
    if rows != [] {
      var n := |rows| - 1;
      RepairWell(rows[..n], stem, held);
      var (earlier, taken) := Repaired(rows[..n], stem, held);
      WellMore(rows[..n], stem, held, earlier, taken, rows[n]);
      assert rows[..n] + [rows[n]] == rows;
    }
  }

  lemma WellMore(rows: seq<Row>, stem: AssetId -> Symbol, held: set<Symbol>, r: seq<Row>, taken: set<Symbol>, row: Row)
    requires |r| == |rows| && RepairedWell(rows, stem, held, r, taken)
    ensures var next := RepairRow(row, stem, taken);
            RepairedWell(rows + [row], stem, held, r + [next], taken + TakenBy(row, next))
  {
    var next := RepairRow(row, stem, taken);
    var after := taken + TakenBy(row, next);
    var all, done := rows + [row], r + [next];
    forall i | 0 <= i < |all| ensures RepairOf(all[i], stem, held, after, done[i]) {
      if i < |rows| {
        var t :| held <= t <= taken && r[i] == RepairRow(rows[i], stem, t);
      }
    }
    if NewlyNamed(row, next) {
      assert next.serving.symbol.value !in taken;
    }
  }

  /** What is kept of a row whatever the repair does to it. */
  lemma OpensNothing(rows: seq<Row>, stem: AssetId -> Symbol, i: nat)
    requires i < |rows|
    ensures var r := Repair(rows, stem)[i];
            && r.key == rows[i].key && r.base == rows[i].base && r.quote == rows[i].quote
            && (r.serving.servesRfq ==> rows[i].serving.servesRfq)
            && r.serving.servesOffer == rows[i].serving.servesOffer
            && r.serving.rfqSellBase == rows[i].serving.rfqSellBase && r.serving.rfqBuyBase == rows[i].serving.rfqBuyBase
            && (rows[i].serving.symbol.Some? ==> r.serving.symbol == rows[i].serving.symbol)
            && (!rows[i].serving.servesRfq ==> r == rows[i])
  {
    RepairedAt(rows, stem, SymbolsOf(rows), i);
  }

  /** The table with its first rows replaced by `done`. */
  function Stage(rows: seq<Row>, done: seq<Row>): (r: seq<Row>)
    requires |done| <= |rows|
    ensures |r| == |rows|
  {
    done + rows[|done|..]
  }

  /** After each statement of the repair, symbols are still unique. */
  lemma RepairKeepsUnique(rows: seq<Row>, stem: AssetId -> Symbol, n: nat)
    requires Unique(rows) && n <= |rows|
    ensures Unique(Stage(rows, Repaired(rows[..n], stem, SymbolsOf(rows)).0))
  {
    var held := SymbolsOf(rows);
    var (done, taken) := Repaired(rows[..n], stem, held);
    var stage := Stage(rows, done);
    RepairWell(rows[..n], stem, held);
    forall i | 0 <= i < |rows| && stage[i].serving.symbol.Some?
      ensures stage[i].serving.symbol == rows[i].serving.symbol || (i < n && NewlyNamed(rows[..n][i], done[i]))
    {
      if i < n {
        assert RepairOf(rows[..n][i], stem, held, taken, done[i]);
      }
    }
    forall i, j | 0 <= i < j < |rows| && stage[i].serving.symbol.Some? ensures stage[j].serving.symbol != stage[i].serving.symbol {
      HeldBy(rows, i);
      HeldBy(rows, j);
    }
  }

  lemma HeldBy(rows: seq<Row>, i: nat)
    requires i < |rows|
    ensures rows[i].serving.symbol.Some? ==> rows[i].serving.symbol.value in SymbolsOf(rows)
  {
    assert rows[i] in rows;
  }

  // ---- the fixed point ----

  ghost predicate AllCoherent(rows: seq<Row>) {
    forall row :: row in rows ==> Coherent(row)
  }

  lemma KeptWhenCoherent(row: Row, stem: AssetId -> Symbol, taken: set<Symbol>)
    ensures RepairRow(row, stem, taken) == row <==> Coherent(row)
  {
    var r := RepairRow(row, stem, taken);
    if !Coherent(row) {
      assert r.serving.servesRfq != row.serving.servesRfq || r.serving.symbol != row.serving.symbol;
    }
  }

  lemma {:induction false} CoherentKept(rows: seq<Row>, stem: AssetId -> Symbol, held: set<Symbol>)
    ensures AllCoherent(rows) <==> Repaired(rows, stem, held).0 == rows
  {
    if rows != [] {
      var n := |rows| - 1;
      CoherentKept(rows[..n], stem, held);
      assert rows == rows[..n] + [rows[n]];
      var (earlier, taken) := Repaired(rows[..n], stem, held);
      assert Repaired(rows, stem, held).0 == earlier + [RepairRow(rows[n], stem, taken)];
      KeptWhenCoherent(rows[n], stem, taken);
      if earlier + [RepairRow(rows[n], stem, taken)] == rows {
        assert earlier == rows[..n];
      }
      assert forall row :: row in rows <==> row in rows[..n] || row == rows[n];
    }
  }

  /** The repair leaves the table alone exactly when every RFQ-serving row has an asset leg, a symbol and an open direction. */
  lemma FixedWhenCoherent(rows: seq<Row>, stem: AssetId -> Symbol)
    ensures Repair(rows, stem) == rows <==> AllCoherent(rows)
  {
    CoherentKept(rows, stem, SymbolsOf(rows));
  }

  /** An RFQ-serving row without a symbol whose directions are both closed. */
  predicate Shut(row: Row) {
    row.serving.servesRfq && AssetOf(row).Some? && row.serving.symbol.None?
    && !row.serving.rfqSellBase && !row.serving.rfqBuyBase
  }

  /** The symbols taken when the repair reaches row `i`. */
  function TakenAt(rows: seq<Row>, stem: AssetId -> Symbol, i: nat): set<Symbol>
    requires i < |rows|
  {
    Repaired(rows[..i], stem, SymbolsOf(rows)).1
  }

  lemma {:induction false} RepairedAt(rows: seq<Row>, stem: AssetId -> Symbol, held: set<Symbol>, i: nat)
    requires i < |rows|
    ensures Repaired(rows, stem, held).0[i] == RepairRow(rows[i], stem, Repaired(rows[..i], stem, held).1)
  {
    var n := |rows| - 1;
    if i < n {
      RepairedAt(rows[..n], stem, held, i);
      assert rows[..n][..i] == rows[..i];
    }
  }

  /** One pass settles the table exactly when it named no row that was shut. */
  lemma OnePassEnough(rows: seq<Row>, stem: AssetId -> Symbol)
    ensures AllCoherent(Repair(rows, stem)) <==>
            forall i :: 0 <= i < |rows| && Shut(rows[i]) ==> stem(AssetOf(rows[i]).value) in TakenAt(rows, stem, i)
  {
    var r := Repair(rows, stem);
    forall i | 0 <= i < |rows|
      ensures Coherent(r[i]) <==> (Shut(rows[i]) ==> stem(AssetOf(rows[i]).value) in TakenAt(rows, stem, i))
    {
      RepairedAt(rows, stem, SymbolsOf(rows), i);
    }
    if AllCoherent(r) {
      forall i | 0 <= i < |rows| ensures Coherent(r[i]) { assert r[i] in r; }
    }
  }

  /** An RFQ-serving row of asset 10 with no symbol and both directions closed. */
  const SHUT := Row(1, Some(10), None, Fields(None, false, true, false, false))

  /** One pass only names that row, and leaves RFQ on with nothing open; the next one closes it. */
  lemma OnePassOnlyNames(stem: AssetId -> Symbol)
    ensures Unique([SHUT]) && DistinctKeys([SHUT])
    ensures Repair([SHUT], stem) == [SetSymbol(SHUT, Some(stem(10)))] && !AllCoherent(Repair([SHUT], stem))
    ensures Repair(Repair([SHUT], stem), stem) == [CloseRfq(SetSymbol(SHUT, Some(stem(10))))]
  {
    var named := SetSymbol(SHUT, Some(stem(10)));
    assert [SHUT][..0] == [] && [named][..0] == [];
    assert SymbolsOf([SHUT]) == {};
    assert named in [named] && !Coherent(named);
    assert Repaired([], stem, {}) == ([], {});
    RepairedAt([SHUT], stem, {}, 0);
    RepairedAt([named], stem, {stem(10)}, 0);
    assert SymbolsOf([named]) == {stem(10)};
  }

  /** With the column defaults, which leave both directions open, one pass always settles it. */
  lemma DefaultsNeedOnePass(rows: seq<Row>, stem: AssetId -> Symbol)
    requires forall row :: row in rows && row.serving.symbol.None? ==> row.serving.rfqSellBase || row.serving.rfqBuyBase
    ensures AllCoherent(Repair(rows, stem)) && Repair(Repair(rows, stem), stem) == Repair(rows, stem)
  {
    OnePassEnough(rows, stem);
    FixedWhenCoherent(Repair(rows, stem), stem);
  }

  /** Two passes always settle it. */
  lemma TwoPassesEnough(rows: seq<Row>, stem: AssetId -> Symbol)
    ensures AllCoherent(Repair(Repair(rows, stem), stem))
    ensures Repair(Repair(Repair(rows, stem), stem), stem) == Repair(Repair(rows, stem), stem)
  {
    var once := Repair(rows, stem);
    forall i | 0 <= i < |once| ensures !Shut(once[i]) {
      RepairedAt(rows, stem, SymbolsOf(rows), i);
    }
    OnePassEnough(once, stem);
    FixedWhenCoherent(Repair(once, stem), stem);
  }

  // ---- the repair itself ----

  lemma StageStep(rows: seq<Row>, done: seq<Row>, next: Row, key: Key, change: Row -> Row)
    requires DistinctKeys(rows) && |done| < |rows| && key == rows[|done|].key && next == change(rows[|done|])
    requires forall i :: 0 <= i < |done| ==> done[i].key == rows[i].key
    ensures Updated(Stage(rows, done), key, change) == Stage(rows, done + [next])
  {
  }

  lemma KeysKept(rows: seq<Row>, stem: AssetId -> Symbol, held: set<Symbol>)
    ensures forall i :: 0 <= i < |rows| ==> Repaired(rows, stem, held).0[i].key == rows[i].key
  {
    RepairWell(rows, stem, held);
    forall i | 0 <= i < |rows| ensures Repaired(rows, stem, held).0[i].key == rows[i].key {
      assert RepairOf(rows[i], stem, held, Repaired(rows, stem, held).1, Repaired(rows, stem, held).0[i]);
    }
  }

  lemma RepairedStep(rows: seq<Row>, stem: AssetId -> Symbol, held: set<Symbol>, i: nat)
    requires i < |rows|
    ensures var (done, taken) := Repaired(rows[..i], stem, held);
            var next := RepairRow(rows[i], stem, taken);
            Repaired(rows[..i + 1], stem, held) == (done + [next], taken + TakenBy(rows[i], next))
  {
    assert rows[..i + 1][..i] == rows[..i];
  }

  /** The statement a row's repair takes, if it takes one. */
  method RepairOne(table: MarketTable, row: Row, stem: AssetId -> Symbol, taken: set<Symbol>,
                   ghost rows: seq<Row>, ghost done: seq<Row>)
    returns (takenAfter: set<Symbol>)
    requires table.Valid() && DistinctKeys(rows) && |done| < |rows| && row == rows[|done|]
    requires table.rows == Stage(rows, done) && forall i :: 0 <= i < |done| ==> done[i].key == rows[i].key
    requires Unique(Stage(rows, done + [RepairRow(row, stem, taken)]))
    modifies table
    ensures table.Valid() && old(table.log) <= table.log
    ensures table.rows == Stage(rows, done + [RepairRow(row, stem, taken)])
    ensures takenAfter == taken + TakenBy(row, RepairRow(row, stem, taken))
  {
    hide Stage, Unique;
    takenAfter := taken;
    ghost var next := RepairRow(row, stem, taken);
    if row.serving.servesRfq {
      var asset := AssetOf(row);
      if asset.Some? && row.serving.symbol.None? && stem(asset.value) !in taken {
        var symbol := stem(asset.value);
        takenAfter := taken + {symbol};
        StageStep(rows, done, next, row.key, (r: Row) => SetSymbol(r, Some(symbol)));
        var ok := table.Update(row.key, (r: Row) => SetSymbol(r, Some(symbol)));
        return;
      } else if asset.None? || row.serving.symbol.None? || (!row.serving.rfqSellBase && !row.serving.rfqBuyBase) {
        StageStep(rows, done, next, row.key, CloseRfq);
        var ok := table.Update(row.key, CloseRfq);
        return;
      }
    }
    StageSame(rows, done);
  }

  lemma StageSame(rows: seq<Row>, done: seq<Row>)
    requires |done| < |rows|
    ensures Stage(rows, done) == Stage(rows, done + [rows[|done|]])
  {
  }

  /** Walk the table once and issue, for each row in need, the one statement that mends it. */
  method RepairServing(table: MarketTable, stem: AssetId -> Symbol)
    requires table.Valid()
    modifies table
    ensures table.Valid() && table.rows == Repair(old(table.rows), stem)
    ensures old(table.log) <= table.log
  {
    hide RepairRow, Unique;
    var rows := table.rows;
    var taken := SymbolsOf(rows);
    ghost var done: seq<Row> := [];
    for i := 0 to |rows|
      invariant table.Valid() && old(table.log) <= table.log
      invariant (done, taken) == Repaired(rows[..i], stem, SymbolsOf(rows)) && |done| == i
      invariant table.rows == Stage(rows, done)
    {
      KeysKept(rows[..i], stem, SymbolsOf(rows));
      RepairedStep(rows, stem, SymbolsOf(rows), i);
      RepairKeepsUnique(rows, stem, i + 1);
      ghost var next := RepairRow(rows[i], stem, taken);
      taken := RepairOne(table, rows[i], stem, taken, rows, done);
      done := done + [next];
    }
    assert rows[..|rows|] == rows;
  }
}
