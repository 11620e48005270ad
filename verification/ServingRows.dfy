/**
 * What each asset market serves: the rows, the unique index on their symbols, and what the
 * configuration implies for them.
 */
module ServingRows {
  import opened Util

  type AssetId = nat
  type Symbol = nat
  type Key = nat

  /** What a row serves: a symbol over RFQ and the directions open there, and offers. */
  datatype Fields = Fields(symbol: Option<Symbol>, servesOffer: bool, servesRfq: bool, rfqSellBase: bool, rfqBuyBase: bool)

  /** One market; `None` is its BTC leg. */
  datatype Row = Row(key: Key, base: Option<AssetId>, quote: Option<AssetId>, serving: Fields)

  /** A configured asset: its symbol, and the directions it is enabled in. */
  datatype Token = Token(assetId: AssetId, symbol: Symbol, clientGives: bool, clientGets: bool)

  /** What the configuration says: the pairs offered on, the assets quoted, and the stem of an unnamed one. */
  datatype Seed = Seed(offerMarkets: seq<(Option<AssetId>, Option<AssetId>)>, tokens: seq<Token>, stem: AssetId -> Symbol)

  /** The asset of a row with exactly one asset leg. */
  function AssetOf(row: Row): Option<AssetId> {
    if row.base.Some? && row.quote.Some? then None
    else if row.base.Some? then row.base
    else row.quote
  }

  function TokenFor(tokens: seq<Token>, assetId: AssetId): (r: Option<Token>)
    ensures r.Some? ==> r.value in tokens && r.value.assetId == assetId
  {
    if tokens == [] then None
    else if tokens[0].assetId == assetId then Some(tokens[0])
    else TokenFor(tokens[1..], assetId)
  }

  predicate SamePair(row: Row, pair: (Option<AssetId>, Option<AssetId>)) {
    (row.base == pair.0 && row.quote == pair.1) || (row.base == pair.1 && row.quote == pair.0)
  }

  /** The fields the configuration implies for a row, when the symbols in `taken` are spoken for. */
  function ServingFor(row: Row, seed: Seed, taken: set<Symbol>): (r: Fields)
    ensures r.symbol.Some? ==> r.symbol.value !in taken && AssetOf(row).Some?
    ensures r.servesRfq ==> r.symbol.Some? && (r.rfqSellBase || r.rfqBuyBase)
  {
    var asset := AssetOf(row);
    var token := if asset.None? then None else TokenFor(seed.tokens, asset.value);
    var derived := if asset.None? then None else if token.Some? then Some(token.value.symbol) else Some(seed.stem(asset.value));
    var symbol := if derived.None? || derived.value in taken then None else derived;
    var assetIsBase := row.base == asset;
    var gives := if token.Some? then token.value.clientGives else true;
    var gets := if token.Some? then token.value.clientGets else true;
    var sell := symbol.Some? && if assetIsBase then gives else gets;
    var buy := symbol.Some? && if assetIsBase then gets else gives;
    Fields(symbol, exists pair :: pair in seed.offerMarkets && SamePair(row, pair), sell || buy, sell, buy)
  }

  function SymbolsOf(rows: seq<Row>): set<Symbol> {
    set row | row in rows && row.serving.symbol.Some? :: row.serving.symbol.value
  }

  /** The unique index: no two rows carry one symbol. */
  ghost predicate Unique(rows: seq<Row>) {
    forall i, j :: 0 <= i < j < |rows| && rows[i].serving.symbol.Some? ==> rows[j].serving.symbol != rows[i].serving.symbol
  }

  ghost predicate DistinctKeys(rows: seq<Row>) {
    forall i, j :: 0 <= i < j < |rows| ==> rows[i].key != rows[j].key
  }

  /** RFQ on means one asset leg, a symbol, and an open direction. */
  predicate Coherent(row: Row) {
    row.serving.servesRfq ==>
      AssetOf(row).Some? && row.serving.symbol.Some? && (row.serving.rfqSellBase || row.serving.rfqBuyBase)
  }

  // ---- one statement ----

  function SetSymbol(row: Row, symbol: Option<Symbol>): Row {
    row.(serving := row.serving.(symbol := symbol))
  }

  function CloseRfq(row: Row): Row {
    row.(serving := row.serving.(servesRfq := false))
  }

  function SetServing(row: Row, fields: Fields): Row {
    row.(serving := fields)
  }

  /** `UPDATE … WHERE market_key = key`. */
  function Updated(rows: seq<Row>, key: Key, change: Row -> Row): (r: seq<Row>)
    ensures |r| == |rows| && forall i :: 0 <= i < |rows| ==> r[i] == if rows[i].key == key then change(rows[i]) else rows[i]
  {
    seq(|rows|, i requires 0 <= i < |rows| => if rows[i].key == key then change(rows[i]) else rows[i])
  }

  /** The table, with every state it has been in. */
  class MarketTable {
    var rows: seq<Row>
    ghost var log: seq<seq<Row>>

    ghost predicate Valid()
      reads this
    {
      DistinctKeys(rows) && Unique(rows) && forall r :: r in log ==> Unique(r)
    }

    constructor (rows: seq<Row>)
      requires DistinctKeys(rows) && Unique(rows)
      ensures Valid() && this.rows == rows && log == []
    {
      this.rows, log := rows, [];
    }

    predicate HasRepeat(rows: seq<Row>) {
      exists i, j :: 0 <= i < j < |rows| && rows[i].serving.symbol.Some? && rows[j].serving.symbol == rows[i].serving.symbol
    }

    /** One statement: refused when it would break the unique index, else kept and logged. */
    method Update(key: Key, change: Row -> Row) returns (ok: bool)
      requires Valid() && forall row: Row :: change(row).key == row.key
      modifies this
      ensures Valid()
      ensures ok <==> Unique(Updated(old(rows), key, change))
      ensures ok ==> rows == Updated(old(rows), key, change) && log == old(log) + [rows]
      ensures !ok ==> rows == old(rows) && log == old(log)
    {
      var next := Updated(rows, key, change);
      ok := !HasRepeat(next);
      if ok {
        rows := next;
        log := log + [next];
      }
    }

    /** A transaction that failed leaves nothing behind. */
    method Rollback(before: seq<Row>)
      requires Valid() && DistinctKeys(before) && Unique(before)
      modifies this`rows
      ensures Valid() && rows == before
    {
      rows := before;
    }
  }

  // ---- what the configuration implies for several rows, in their order ----

  /** The fields derived for each of `rows`, none taking a symbol of `taken` or of a row before it. */
  function Derived(rows: seq<Row>, seed: Seed, taken: set<Symbol>): (r: seq<Fields>)
    ensures |r| == |rows|
  {
    if rows == [] then []
    else
      var n := |rows| - 1;
      var earlier := Derived(rows[..n], seed, taken);
      earlier + [ServingFor(rows[n], seed, taken + Named(earlier))]
  }

  function Named(fields: seq<Fields>): set<Symbol> {
    set f | f in fields && f.symbol.Some? :: f.symbol.value
  }

  /** Derived symbols are distinct, keep clear of `taken`, and each row's fields are coherent. */
  lemma {:induction false} DerivedApart(rows: seq<Row>, seed: Seed, taken: set<Symbol>)
    ensures var d := Derived(rows, seed, taken);
            && (forall i :: 0 <= i < |d| && d[i].symbol.Some? ==> d[i].symbol.value !in taken)
            && (forall i, j :: 0 <= i < j < |d| && d[i].symbol.Some? ==> d[j].symbol != d[i].symbol)
            && (forall i :: 0 <= i < |d| ==> Coherent(SetServing(rows[i], d[i])))
  {
    if rows != [] {
      var n := |rows| - 1;
      DerivedApart(rows[..n], seed, taken);
      var earlier := Derived(rows[..n], seed, taken);
      forall i | 0 <= i < n && earlier[i].symbol.Some? ensures earlier[i].symbol.value in Named(earlier) {
        assert earlier[i] in earlier;
      }
    }
  }

  /** The derivation looks only at the legs. */
  lemma {:induction false} DerivedByLegs(rows: seq<Row>, others: seq<Row>, seed: Seed, taken: set<Symbol>)
    requires |rows| == |others| && forall i :: 0 <= i < |rows| ==> rows[i].base == others[i].base && rows[i].quote == others[i].quote
    ensures Derived(rows, seed, taken) == Derived(others, seed, taken)
  {
    if rows != [] {
      var n := |rows| - 1;
      DerivedByLegs(rows[..n], others[..n], seed, taken);
      SameServing(rows[n], others[n], seed, taken + Named(Derived(rows[..n], seed, taken)));
    }
  }

  lemma SameServing(row: Row, other: Row, seed: Seed, taken: set<Symbol>)
    requires row.base == other.base && row.quote == other.quote
    ensures ServingFor(row, seed, taken) == ServingFor(other, seed, taken)
  {
    assert forall pair :: SamePair(row, pair) == SamePair(other, pair);
  }

  // ---- boot repair ----

  /** What the repair has done: the row it leaves, and the symbols taken so far. */
  function RepairRow(row: Row, stem: AssetId -> Symbol, taken: set<Symbol>): Row {
    if !row.serving.servesRfq then row
    else if AssetOf(row).None? then CloseRfq(row)
    else if row.serving.symbol.None? then
      if stem(AssetOf(row).value) in taken then CloseRfq(row) else SetSymbol(row, Some(stem(AssetOf(row).value)))
    else if !row.serving.rfqSellBase && !row.serving.rfqBuyBase then CloseRfq(row)
    else row
  }

  function TakenBy(row: Row, repaired: Row): set<Symbol> {
    if row.serving.symbol.None? && repaired.serving.symbol.Some? then {repaired.serving.symbol.value} else {}
  }

  /** One pass of the repair over `rows`, `held` being every symbol the table had when it began. */
  function Repaired(rows: seq<Row>, stem: AssetId -> Symbol, held: set<Symbol>): (r: (seq<Row>, set<Symbol>))
    ensures |r.0| == |rows|
  {
    if rows == [] then ([], held)
    else
      var n := |rows| - 1;
      var (earlier, taken) := Repaired(rows[..n], stem, held);
      var row := RepairRow(rows[n], stem, taken);
      (earlier + [row], taken + TakenBy(rows[n], row))
  }

  function Repair(rows: seq<Row>, stem: AssetId -> Symbol): (r: seq<Row>)
    ensures |r| == |rows|
  {
    Repaired(rows, stem, SymbolsOf(rows)).0
  }
}
