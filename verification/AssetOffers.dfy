/**
 * The taker of Arkade offers: it decides each discovered offer, records an intent, and sweeps
 * the recorded intents, retrying a fill only when it provably submitted nothing.
 */
module AssetOffers {
  import opened Util
  import opened OfferFills

  const MAX_FILL_DEFERRALS: nat := 40

  // ---- the decision ----

  /** An unordered market; `None` is BTC. */
  datatype Market = Market(a: Option<nat>, b: Option<nat>)

  datatype Bounds = Bounds(min: int, max: int)

  datatype Direction = SellBase | BuyBase

  /** Pricing of one market, with the payout bounds it may state for each direction. */
  datatype Pricing = Pricing(base: Option<nat>, quote: Option<nat>, sellBase: Option<Bounds>, buyBase: Option<Bounds>)

  datatype Refusal =
    | OfferInconsistent
    | DegeneratePair
    | OfferUnfunded
    | UnsupportedPair
    | AmountOutOfRange
    | InsufficientInventory
    | PriceOutOfTolerance

  function DirectionOn(p: Pricing, deposit: Option<nat>, want: Option<nat>): Option<Direction> {
    if deposit == p.base && want == p.quote then Some(SellBase)
    else if deposit == p.quote && want == p.base then Some(BuyBase)
    else None
  }

  /** The first market that prices these terms, and which way round. */
  function PricingFor(pricing: seq<Pricing>, terms: Terms): (r: Option<(Pricing, Direction)>)
    ensures r.Some? ==> r.value.0 in pricing && DirectionOn(r.value.0, terms.offerAsset, terms.wantAsset) == Some(r.value.1)
    ensures r.None? ==> forall p :: p in pricing ==> DirectionOn(p, terms.offerAsset, terms.wantAsset).None?
  {
    if pricing == [] then None
    else
      var direction := DirectionOn(pricing[0], terms.offerAsset, terms.wantAsset);
      if direction.Some? then Some((pricing[0], direction.value)) else PricingFor(pricing[1..], terms)
  }

  /** Bounds of the first market pricing these terms in this direction; the deployment's fill in. */
  function BoundsIn(pricing: Option<seq<Pricing>>, deployment: Bounds, terms: Terms): Bounds {
    var found := PricingFor(if pricing.Some? then pricing.value else [], terms);
    if found.None? then deployment
    else
      var stated := if found.value.1 == SellBase then found.value.0.sellBase else found.value.0.buyBase;
      if stated.Some? then stated.value else deployment
  }

  predicate SameMarket(m: Market, x: Option<nat>, y: Option<nat>) {
    (m.a == x && m.b == y) || (m.a == y && m.b == x)
  }

  /** Why an offer cannot be filled; `None` when it can. */
  function Evaluate(terms: Terms, markets: seq<Market>, bounds: Bounds, held: int): Option<Refusal> {
    if terms.wantAsset == terms.offerAsset then Some(DegeneratePair)
    else if terms.offerAmount <= 0 then Some(OfferUnfunded)
    else if !exists m :: m in markets && SameMarket(m, terms.wantAsset, terms.offerAsset) then Some(UnsupportedPair)
    else if terms.wantAmount < bounds.min || terms.wantAmount > bounds.max then Some(AmountOutOfRange)
    else if held < terms.wantAmount then Some(InsufficientInventory)
    else None
  }

  /** `feedAccepts` is the feed's answer; without pricing every price is taken, without a market none. */
  predicate WithinTolerance(pricing: Option<seq<Pricing>>, terms: Terms, feedAccepts: bool) {
    pricing.None? || (PricingFor(pricing.value, terms).Some? && feedAccepts)
  }

  /** What the world shows while one offer is considered. */
  datatype Sighting = Sighting(outpoint: Outpoint, consistent: bool, terms: Terms, held: int, feedAccepts: bool)

  function Refusing(s: Sighting, markets: seq<Market>, pricing: Option<seq<Pricing>>, deployment: Bounds): Option<Refusal> {
    if !s.consistent then Some(OfferInconsistent)
    else
      var structural := Evaluate(s.terms, markets, BoundsIn(pricing, deployment, s.terms), s.held);
      if structural.Some? then structural
      else if !WithinTolerance(pricing, s.terms, s.feedAccepts) then Some(PriceOutOfTolerance)
      else None
  }

  datatype Outcome = Fill(id: Id) | Declined(reason: Refusal) | InsertFailed

  // ---- one sweep's effect on one row ----

  /** How settling one intent goes. */
  datatype Settlement =
    | Unfit           // a guard above the coin selection refuses it
    | Short           // the float is pinned or short: nothing submitted, and it says so
    | Sent(txid: nat)
    | Broken          // submitted, or perhaps so, and it threw

  datatype SettleResult = Txid(txid: nat) | NotSubmitted | Failure

  /** What the feed, the approval gate and the settlement answer for a row in one sweep. */
  datatype Choice = Choice(feedAccepts: bool, approved: bool, settlement: Settlement)

  const CLAIM := Fields(Some(Selecting), None)

  function Claimed(row: Row): Row {
    Moved(row, Filling, CLAIM)
  }

  /** What the first sweep after a start makes of a row it finds in `Filling`. */
  function Recovered(row: Row): Row {
    if row.state != Filling then row
    else if row.phase == Selecting then Reverted(row)
    else Moved(row, Stuck, NOTHING)
  }

  /** The row is attempted in this sweep. */
  predicate Attempts(pricing: Option<seq<Pricing>>, row: Row, c: Choice) {
    row.state == Fillable && WithinTolerance(pricing, row.terms, c.feedAccepts) && c.approved
  }

  predicate Defers(pricing: Option<seq<Pricing>>, row: Row, c: Choice, deferrals: nat) {
    Attempts(pricing, row, c) && c.settlement == Short && deferrals < MAX_FILL_DEFERRALS
  }

  predicate Submits(pricing: Option<seq<Pricing>>, row: Row, c: Choice) {
    Attempts(pricing, row, c) && (c.settlement.Sent? || c.settlement.Broken?)
  }

  /** A fillable row after a sweep, given how often this process deferred it before. */
  function Attempted(pricing: Option<seq<Pricing>>, row: Row, c: Choice, deferrals: nat): Row {
    if !WithinTolerance(pricing, row.terms, c.feedAccepts) then Moved(row, FillState.Refused, NOTHING)
    else if !c.approved then row
    else Settled(Claimed(row), c.settlement, deferrals)
  }

  /** A claimed row once its settlement has come back. */
  function Settled(row: Row, s: Settlement, deferrals: nat): Row {
    match s
    case Unfit => Moved(row, Stuck, NOTHING)
    case Short => if deferrals < MAX_FILL_DEFERRALS then Reverted(row) else Moved(row, Stuck, NOTHING)
    case Sent(txid) => Moved(Latched(row), Filled, Fields(None, Some(txid)))
    case Broken => Moved(Latched(row), Stuck, NOTHING)
  }

  /** Any row after a sweep. */
  function Swept(pricing: Option<seq<Pricing>>, row: Row, c: Choice, deferrals: nat): (r: Row)
    ensures r.state != Filling
    ensures r.id == row.id && r.outpoint == row.outpoint && r.terms == row.terms
    ensures r.state == Fillable ==> row.state == Fillable || (row.state == Filling && row.phase == Selecting)
  {
    if row.state == Filling then Recovered(row)
    else if row.state == Fillable then Attempted(pricing, row, c, deferrals)
    else row
  }

  function Count(deferrals: map<Id, nat>, id: Id): nat {
    if id in deferrals then deferrals[id] else 0
  }

  predicate WalkedBackByRecovery(row: Row) {
    row.state == Filling && row.phase == Selecting
  }

  /** How often a process may have walked a row back: it knows its own deferrals of every live row. */
  ghost predicate AccountedAt(rows: map<Id, Row>, deferrals: map<Id, nat>, deferred: multiset<Id>, recovered: multiset<Id>, swept: bool, id: Id) {
    && deferred[id] <= MAX_FILL_DEFERRALS && recovered[id] <= (if swept then 1 else 0)
    && (if id !in rows then deferred[id] == 0 && id !in deferrals
        else (!IsTerminal(rows[id].state) ==> deferred[id] == Count(deferrals, id)) && (swept ==> rows[id].state != Filling))
  }

  ghost predicate Accounted(rows: map<Id, Row>, deferrals: map<Id, nat>, deferred: multiset<Id>, recovered: multiset<Id>, swept: bool) {
    forall id :: AccountedAt(rows, deferrals, deferred, recovered, swept, id)
  }

  lemma AccountedInsert(rows: map<Id, Row>, row: Row, deferrals: map<Id, nat>, deferred: multiset<Id>, recovered: multiset<Id>, swept: bool)
    requires Accounted(rows, deferrals, deferred, recovered, swept) && row.state == Fillable
    ensures row.id !in rows ==> Accounted(rows[row.id := row], deferrals, deferred, recovered, swept)
  {
    if row.id !in rows {
      var next := rows[row.id := row];
      forall id ensures AccountedAt(next, deferrals, deferred, recovered, swept, id) {
        assert AccountedAt(rows, deferrals, deferred, recovered, swept, id);
      }
    }
  }

  // ---- the service ----

  class AssetOfferService {
    const store: OfferFillStore
    const deployment: Bounds
    /** Whether this deployment can spend at all; without it every intent stays recorded. */
    const settles: bool
    var markets: seq<Market>
    var pricing: Option<seq<Pricing>>
    /** Deferrals per row, in memory only. */
    var deferrals: map<Id, nat>
    /** Rows this process walked back after a deferral, and on finding them left behind. */
    ghost var deferred: multiset<Id>
    ghost var recovered: multiset<Id>
    ghost var swept: bool

    ghost predicate Valid()
      reads this, store
    {
      store.Valid() && Accounted(store.rows, deferrals, deferred, recovered, swept)
    }

    /** A process starts: the store as an earlier one left it, and no memory of any deferral. */
    constructor (store: OfferFillStore, deployment: Bounds, settles: bool, markets: seq<Market>, pricing: Option<seq<Pricing>>)
      requires store.Valid()
      ensures Valid() && this.store == store && this.markets == markets && this.pricing == pricing
      ensures this.deployment == deployment && this.settles == settles && deferrals == map[] && deferred == multiset{} && recovered == multiset{} && !swept
    {
      this.store, this.deployment, this.settles, this.markets, this.pricing := store, deployment, settles, markets, pricing;
      deferrals := map[];
      deferred, recovered, swept := multiset{}, multiset{}, false;
    }

    /** From here on offers are judged by these markets; rows already recorded are not repriced. */
    method ReplaceMarkets(markets: seq<Market>, pricing: Option<seq<Pricing>>)
      requires Valid()
      modifies this`markets, this`pricing
      ensures Valid() && this.markets == markets && this.pricing == pricing
    {
      this.markets, this.pricing := markets, pricing;
    }

    /** Judge one sighting: refused for the first reason that applies, else filed as a new row. */
    method Consider(s: Sighting, newId: Id) returns (r: Outcome)
      requires Valid()
      modifies store
      ensures Valid()
      ensures LiveAt(old(store.rows), s.outpoint) ==>
                r.Fill? && r.id in store.rows && store.rows == old(store.rows)
                && store.rows[r.id].outpoint == s.outpoint && IsLive(store.rows[r.id])
      ensures !LiveAt(old(store.rows), s.outpoint) ==>
                match Refusing(s, markets, pricing, deployment)
                case Some(reason) => r == Declined(reason) && store.rows == old(store.rows)
                case None =>
                  if newId in old(store.rows) then r == InsertFailed && store.rows == old(store.rows)
                  else r == Fill(newId)
                       && store.rows == old(store.rows)[newId := Row(newId, s.outpoint, s.terms, Fillable, NoPhase, None)]
      ensures store.submitted == old(store.submitted) && old(store.log) <= store.log
    {
      var existing := store.FindLiveByOutpoint(s.outpoint);
      if existing.Some? { return Fill(existing.value.id); }
      if !s.consistent { return Declined(OfferInconsistent); }
      var bounds := BoundsIn(pricing, deployment, s.terms);
      var decision := Evaluate(s.terms, markets, bounds, s.held);
      if decision.Some? { return Declined(decision.value); }
      if !WithinTolerance(pricing, s.terms, s.feedAccepts) { return Declined(PriceOutOfTolerance); }
      AccountedInsert(store.rows, Row(newId, s.outpoint, s.terms, Fillable, NoPhase, None), deferrals, deferred, recovered, swept);
      var inserted := store.InsertIntent(newId, s.outpoint, s.terms);
      r := if inserted then Fill(newId) else InsertFailed;
    }

    /** Carry one claimed row to the point where its fill is handed over, which the latch allows once. */
    method Settle(id: Id, s: Settlement) returns (r: SettleResult)
      requires store.Valid()
      modifies store
      ensures store.Valid() && old(store.log) <= store.log && store.order == old(store.order)
      ensures s.Unfit? ==> r == Failure
      ensures s.Short? ==> r == NotSubmitted
      ensures s.Unfit? || s.Short? || !HoldsSelecting(old(store.rows), id) ==>
                store.rows == old(store.rows) && store.latched == old(store.latched) && store.submitted == old(store.submitted)
      ensures (s.Sent? || s.Broken?) && !HoldsSelecting(old(store.rows), id) ==> r == NotSubmitted
      ensures (s.Sent? || s.Broken?) && HoldsSelecting(old(store.rows), id) ==>
                && store.rows == old(store.rows)[id := Latched(old(store.rows)[id])]
                && store.latched == old(store.latched) && store.submitted == old(store.submitted) + multiset{id}
                && r == if s.Sent? then Txid(s.txid) else Failure
    {
      if s.Unfit? { return Failure; }
      if s.Short? { return NotSubmitted; }
      var won := store.MarkSubmitting(id);
      if !won { return NotSubmitted; }
      store.Submitted(id);
      r := if s.Sent? then Txid(s.txid) else Failure;
    }

    /** One fillable row: price it again, ask for approval, claim it, settle it, and put it back only if nothing was sent. */
    method Attempt(row: Row, c: Choice) returns (filled: bool)
      requires store.Valid() && row.id in store.rows && store.rows[row.id] == row && row.state == Fillable
      modifies store, this`deferrals, this`deferred
      ensures store.Valid() && old(store.log) <= store.log && store.order == old(store.order)
      ensures store.rows == old(store.rows)[row.id := Attempted(pricing, row, c, Count(old(deferrals), row.id))]
      ensures store.submitted == old(store.submitted) + if Submits(pricing, row, c) then multiset{row.id} else multiset{}
      ensures filled <==> Attempts(pricing, row, c) && c.settlement.Sent?
      ensures var n := Count(old(deferrals), row.id);
              if Defers(pricing, row, c, n) then deferrals == old(deferrals)[row.id := n + 1] && deferred == old(deferred) + multiset{row.id}
              else deferrals == old(deferrals) && deferred == old(deferred)
    {
      hide Settled, PricingFor, Path, Safe;
      filled := false;
      if !WithinTolerance(pricing, row.terms, c.feedAccepts) {
        var failed := store.Transition(row.id, Fillable, FillState.Refused, NOTHING);
        return;
      }
      if !c.approved { return; }
      var claimed := store.Transition(row.id, Fillable, Filling, CLAIM);
      if !claimed { return; }
      filled := SettleClaimed(Claimed(row), c.settlement);
    }

    /** The claimed row, settled: filled, put back, or left for a human. */
    method SettleClaimed(row: Row, s: Settlement) returns (filled: bool)
      requires store.Valid() && HoldsSelecting(store.rows, row.id) && store.rows[row.id] == row
      modifies store, this`deferrals, this`deferred
      ensures store.Valid() && old(store.log) <= store.log && store.order == old(store.order)
      ensures store.rows == old(store.rows)[row.id := Settled(row, s, Count(old(deferrals), row.id))]
      ensures store.submitted == old(store.submitted) + if s.Sent? || s.Broken? then multiset{row.id} else multiset{}
      ensures filled <==> s.Sent?
      ensures var n := Count(old(deferrals), row.id);
              if s.Short? && n < MAX_FILL_DEFERRALS then deferrals == old(deferrals)[row.id := n + 1] && deferred == old(deferred) + multiset{row.id}
              else deferrals == old(deferrals) && deferred == old(deferred)
    {
      filled := false;
      var result := Settle(row.id, s);
      if result.Txid? {
        var moved := store.Transition(row.id, Filling, Filled, Fields(None, Some(result.txid)));
        filled := true;
      } else {
        PutBackOrFail(row, result);
      }
    }

    /** After a settlement that gave no transaction. */
    method PutBackOrFail(row: Row, result: SettleResult)
      requires store.Valid() && Holds(store.rows, row.id, Filling) && !result.Txid?
      requires result == NotSubmitted ==> HoldsSelecting(store.rows, row.id)
      modifies store`rows, store`log, this`deferrals, this`deferred
      ensures store.Valid() && old(store.log) <= store.log
      ensures var n := Count(old(deferrals), row.id);
              if result == NotSubmitted && n < MAX_FILL_DEFERRALS then
                && store.rows == old(store.rows)[row.id := Reverted(old(store.rows)[row.id])]
                && deferrals == old(deferrals)[row.id := n + 1] && deferred == old(deferred) + multiset{row.id}
              else
                && store.rows == old(store.rows)[row.id := Moved(old(store.rows)[row.id], Stuck, NOTHING)]
                && deferrals == old(deferrals) && deferred == old(deferred)
    {
      var n := (if row.id in deferrals then deferrals[row.id] else 0) + 1;
      if result == NotSubmitted && n <= MAX_FILL_DEFERRALS {
        var reverted := store.RevertUnsubmitted(row.id);
        if reverted {
          deferrals := deferrals[row.id := n];
          deferred := deferred + multiset{row.id};
        }
      } else {
        var failed := store.Transition(row.id, Filling, Stuck, NOTHING);
      }
    }

    /** A row left `Filling`: only one that had not reached the latch walks back. */
    method RecoverFilling(row: Row)
      requires store.Valid() && row.id in store.rows && store.rows[row.id] == row && row.state == Filling
      modifies store, this`recovered
      ensures store.Valid() && old(store.log) <= store.log && store.order == old(store.order)
      ensures store.rows == old(store.rows)[row.id := Recovered(row)] && store.submitted == old(store.submitted)
      ensures recovered == old(recovered) + if WalkedBackByRecovery(row) then multiset{row.id} else multiset{}
    {
      if row.phase == Selecting {
        var reverted := store.RevertUnsubmitted(row.id);
        if reverted { recovered := recovered + multiset{row.id}; }
      } else {
        var failed := store.Transition(row.id, Filling, Stuck, NOTHING);
      }
    }

    /** Forget the deferrals of rows that are no longer live. */
    method PruneDeferrals(rows: seq<Row>)
      modifies this`deferrals
      ensures Pruned(old(deferrals), deferrals, rows)
    {
      var live := set row | row in rows :: row.id;
      deferrals := map id | id in deferrals && id in live :: deferrals[id];
    }

    /** First half of a sweep: every row found `Filling` is recovered. */
    method RecoverAll(rows: seq<Row>)
      requires store.Valid() && ListsAll(store.rows, rows)
      modifies store, this`recovered
      ensures store.Valid() && old(store.log) <= store.log && store.order == old(store.order) && store.submitted == old(store.submitted)
      ensures store.rows == RecoveredRows(old(store.rows), rows)
      ensures recovered == old(recovered) + RecoveredIds(rows)
    {
      hide RecoveredRows, RecoveredIds, Recovered, WalkedBackByRecovery, Path, Safe;
      ghost var rows0 := store.rows;
      RecoverNone(rows0);
      for i := 0 to |rows|
        invariant store.Valid() && old(store.log) <= store.log && store.order == old(store.order)
        invariant store.submitted == old(store.submitted)
        invariant store.rows == RecoveredRows(rows0, rows[..i])
        invariant recovered == old(recovered) + RecoveredIds(rows[..i])
      {
        RecoverOne(rows0, rows, i);
        if rows[i].state == Filling { RecoverFilling(rows[i]); }
      }
      assert rows[..|rows|] == rows;
    }

    /** What a sweep works on, `filled` of its rows filled so far. */
    ghost function Books(filled: nat): Sweep
      reads this, store
    {
      Sweep(store.rows, store.submitted, deferrals, deferred, filled)
    }

    /** One listed row: attempted when it was fillable, left alone when it was not. */
    method AttemptListed(row: Row, c: Choice, before: nat) returns (filled: nat)
      requires store.Valid() && (row.state == Fillable ==> row.id in store.rows && store.rows[row.id] == row)
      modifies store, this`deferrals, this`deferred
      ensures store.Valid() && old(store.log) <= store.log && store.order == old(store.order)
      ensures Books(filled) == SweepRow(pricing, old(Books(before)), row, c)
    {
      hide Attempted, Submits, Defers, Attempts, OfferFillStore.Valid;
      filled := before;
      if row.state == Fillable {
        FillsWhat(pricing, row, c);
        var done := Attempt(row, c);
        if done { filled := before + 1; }
      }
    }

    /** Second half: every row found fillable is attempted, oldest first. */
    method AttemptAll(rows: seq<Row>, choices: Id -> Choice) returns (filled: nat)
      requires store.Valid() && forall k :: 0 <= k < |rows| ==> rows[k].state == Fillable ==> rows[k].id in store.rows && store.rows[rows[k].id] == rows[k]
      requires forall j, k :: 0 <= j < k < |rows| ==> rows[j].id != rows[k].id
      modifies store, this`deferrals, this`deferred
      ensures store.Valid() && old(store.log) <= store.log && store.order == old(store.order)
      ensures Books(filled) == SweepAll(pricing, old(Books(0)), rows, choices)
    {
      hide SweepAll, SweepRow, OfferFillStore.Valid;
      filled := 0;
      ghost var start := Books(0);
      SweepNone(pricing, start, choices);
      for i := 0 to |rows|
        invariant store.Valid() && old(store.log) <= store.log && store.order == old(store.order)
        invariant Books(filled) == SweepAll(pricing, start, rows[..i], choices)
      {
        SweepOne(pricing, start, rows, choices, i);
        filled := AttemptListed(rows[i], choices(rows[i].id), filled);
      }
      assert rows[..|rows|] == rows;
    }

    /** One sweep over the rows still open, counting those that end filled. */
    method TickAll(choices: Id -> Choice) returns (filled: nat)
      requires Valid()
      modifies store, this`deferrals, this`deferred, this`recovered, this`swept
      ensures Valid() && old(store.log) <= store.log
      ensures !settles ==> filled == 0 && store.rows == old(store.rows) && store.submitted == old(store.submitted)
      ensures settles ==>
                && swept && store.rows.Keys == old(store.rows.Keys)
                && forall id :: id in old(store.rows) ==>
                     Ticked(pricing, old(Tally(id)), Tally(id), choices(id), Count(old(deferrals), id))
      ensures settles ==>
                filled == |set id | id in old(store.rows) && old(store.rows)[id].state == Fillable && store.rows[id].state == Filled|
    {
      hide SweepAll, RecoveredRows, RecoveredIds, Accounted, Ticked, ListsAll, Pruned, Path, Safe, Keyed, Listed;
      if !settles { return 0; }
      var rows := store.ListNonTerminal();
      ghost var before, deferrals0, recovered0, swept0 := Books(0), deferrals, recovered, swept;
      store.SafeNow();
      KeyedNow(store.Now());
      ListedRows(store.rows, store.order);
      PruneDeferrals(rows);
      RecoverAll(rows);
      ghost var start := Books(0);
      RecoveredListing(before.rows, rows);
      filled := AttemptAll(rows, choices);
      swept := true;
      TickDone(pricing, before.rows, rows, before, deferrals0, recovered0, swept0, start, choices);
    }

    /** What one row's account stands at. */
    ghost function Tally(id: Id): RowTally
      requires id in store.rows
      reads this, store
    {
      RowTally(store.rows[id], store.submitted[id], deferred[id], recovered[id])
    }
  }

  /** What a listing gives: each row still to resolve, once, as it stands. */
  ghost predicate ListsAll(rows: map<Id, Row>, listed: seq<Row>) {
    && (forall k :: 0 <= k < |listed| ==> listed[k].id in rows && rows[listed[k].id] == listed[k] && !IsTerminal(listed[k].state))
    && (forall j, k :: 0 <= j < k < |listed| ==> listed[j].id != listed[k].id)
    && (forall id :: id in rows && !IsTerminal(rows[id].state) ==> rows[id] in listed)
  }

  lemma {:induction false} ListedSome(rows: map<Id, Row>, order: seq<Id>)
    requires Keyed(rows) && (forall id :: id in order ==> id in rows) && Distinct(order)
    ensures var listed := Listed(rows, order);
            && (forall k :: 0 <= k < |listed| ==>
                  listed[k].id in order && listed[k].id in rows && rows[listed[k].id] == listed[k] && !IsTerminal(listed[k].state))
            && (forall j, k :: 0 <= j < k < |listed| ==> listed[j].id != listed[k].id)
            && (forall id :: id in order && !IsTerminal(rows[id].state) ==> rows[id] in listed)
  {
    if order != [] {
      var n := |order| - 1;
      assert order == order[..n] + [order[n]];
      ListedSome(rows, order[..n]);
      assert order[n] !in order[..n];
    }
  }

  lemma ListedRows(rows: map<Id, Row>, order: seq<Id>)
    requires Keyed(rows) && (forall id :: id in order <==> id in rows) && Distinct(order)
    ensures ListsAll(rows, Listed(rows, order))
  {
    ListedSome(rows, order);
  }

  // ---- a sweep, as a function ----

  function RecoveredRows(rows: map<Id, Row>, listed: seq<Row>): map<Id, Row> {
    if listed == [] then rows
    else
      var row := listed[|listed| - 1];
      var earlier := RecoveredRows(rows, listed[..|listed| - 1]);
      if row.state == Filling then earlier[row.id := Recovered(row)] else earlier
  }

  function RecoveredIds(listed: seq<Row>): multiset<Id> {
    if listed == [] then multiset{}
    else
      var row := listed[|listed| - 1];
      RecoveredIds(listed[..|listed| - 1]) + if WalkedBackByRecovery(row) then multiset{row.id} else multiset{}
  }

  datatype Sweep = Sweep(rows: map<Id, Row>, submitted: multiset<Id>, deferrals: map<Id, nat>, deferred: multiset<Id>, filled: nat)

  function SweepRow(pricing: Option<seq<Pricing>>, w: Sweep, row: Row, c: Choice): Sweep {
    if row.state != Fillable then w
    else
      var n := Count(w.deferrals, row.id);
      Sweep(
        w.rows[row.id := Attempted(pricing, row, c, n)],
        w.submitted + (if Submits(pricing, row, c) then multiset{row.id} else multiset{}),
        if Defers(pricing, row, c, n) then w.deferrals[row.id := n + 1] else w.deferrals,
        if Defers(pricing, row, c, n) then w.deferred + multiset{row.id} else w.deferred,
        w.filled + if Fills(pricing, row, c) then 1 else 0)
  }

  function SweepAll(pricing: Option<seq<Pricing>>, w: Sweep, listed: seq<Row>, choices: Id -> Choice): Sweep {
    if listed == [] then w
    else
      var row := listed[|listed| - 1];
      SweepRow(pricing, SweepAll(pricing, w, listed[..|listed| - 1], choices), row, choices(row.id))
  }

  lemma RecoverNone(rows: map<Id, Row>)
    ensures RecoveredRows(rows, []) == rows && RecoveredIds([]) == multiset{}
  {
  }

  /** One more row of the listing: it still stands as listed, and recovering it is one more step. */
  lemma RecoverOne(rows: map<Id, Row>, listed: seq<Row>, i: nat)
    requires ListsAll(rows, listed) && i < |listed|
    ensures var now, row := RecoveredRows(rows, listed[..i]), listed[i];
            && row.id in now && now[row.id] == row
            && RecoveredRows(rows, listed[..i + 1]) == (if row.state == Filling then now[row.id := Recovered(row)] else now)
            && RecoveredIds(listed[..i + 1]) == RecoveredIds(listed[..i]) + (if WalkedBackByRecovery(row) then multiset{row.id} else multiset{})
            && (row.state != Filling ==> !WalkedBackByRecovery(row))
  {
    assert listed[..i + 1][..i] == listed[..i];
    RecoveredElsewhere(rows, listed[..i], listed[i].id);
  }

  lemma {:induction false} RecoveredElsewhere(rows: map<Id, Row>, listed: seq<Row>, id: Id)
    requires forall k :: 0 <= k < |listed| ==> listed[k].id != id
    ensures id in RecoveredRows(rows, listed) <==> id in rows
    ensures id in rows ==> RecoveredRows(rows, listed)[id] == rows[id]
    ensures RecoveredIds(listed)[id] == 0
  {
    if listed != [] { RecoveredElsewhere(rows, listed[..|listed| - 1], id); }
  }

  /** The recovery, row by row of the store. */
  lemma {:induction false} RecoveredAt(rows: map<Id, Row>, listed: seq<Row>, i: nat)
    requires i < |listed| && (forall j, k :: 0 <= j < k < |listed| ==> listed[j].id != listed[k].id)
    requires listed[i].id in rows && rows[listed[i].id] == listed[i]
    ensures listed[i].id in RecoveredRows(rows, listed) && RecoveredRows(rows, listed)[listed[i].id] == Recovered(listed[i])
    ensures RecoveredIds(listed)[listed[i].id] == if WalkedBackByRecovery(listed[i]) then 1 else 0
  {
    var n := |listed| - 1;
    if i < n {
      RecoveredAt(rows, listed[..n], i);
    } else {
      RecoveredElsewhere(rows, listed[..n], listed[n].id);
    }
  }

  lemma SweepNone(pricing: Option<seq<Pricing>>, w: Sweep, choices: Id -> Choice)
    ensures SweepAll(pricing, w, [], choices) == w
  {
  }

  lemma SweepOne(pricing: Option<seq<Pricing>>, w: Sweep, listed: seq<Row>, choices: Id -> Choice, i: nat)
    requires i < |listed| && (forall j, k :: 0 <= j < k < |listed| ==> listed[j].id != listed[k].id)
    requires listed[i].state == Fillable ==> listed[i].id in w.rows && w.rows[listed[i].id] == listed[i]
    ensures var now, row := SweepAll(pricing, w, listed[..i], choices), listed[i];
            && (row.state == Fillable ==> row.id in now.rows && now.rows[row.id] == row)
            && SweepAll(pricing, w, listed[..i + 1], choices) == SweepRow(pricing, now, row, choices(row.id))
  {
    assert listed[..i + 1][..i] == listed[..i];
    SweptElsewhere(pricing, w, listed[..i], choices, listed[i].id);
  }

  /** `id` is as it was. */
  ghost predicate SameAt(w: Sweep, v: Sweep, id: Id) {
    && (id in v.rows <==> id in w.rows) && (id in w.rows ==> v.rows[id] == w.rows[id])
    && v.submitted[id] == w.submitted[id] && v.deferred[id] == w.deferred[id]
    && Count(v.deferrals, id) == Count(w.deferrals, id) && (id in v.deferrals <==> id in w.deferrals)
  }

  lemma {:induction false} SweptElsewhere(pricing: Option<seq<Pricing>>, w: Sweep, listed: seq<Row>, choices: Id -> Choice, id: Id)
    requires forall k :: 0 <= k < |listed| ==> listed[k].id != id || listed[k].state != Fillable
    ensures SameAt(w, SweepAll(pricing, w, listed, choices), id)
  {
    if listed != [] { SweptElsewhere(pricing, w, listed[..|listed| - 1], choices, id); }
  }

  /** The sweep, row by row of the store. */
  ghost predicate SweptRow(pricing: Option<seq<Pricing>>, w: Sweep, v: Sweep, row: Row, c: Choice) {
    var n := Count(w.deferrals, row.id);
    && row.id in v.rows && v.rows[row.id] == Attempted(pricing, row, c, n)
    && v.submitted[row.id] == w.submitted[row.id] + (if Submits(pricing, row, c) then 1 else 0)
    && v.deferred[row.id] == w.deferred[row.id] + (if Defers(pricing, row, c, n) then 1 else 0)
    && Count(v.deferrals, row.id) == n + (if Defers(pricing, row, c, n) then 1 else 0)
  }

  lemma {:induction false} SweptAt(pricing: Option<seq<Pricing>>, w: Sweep, listed: seq<Row>, choices: Id -> Choice, i: nat)
    requires i < |listed| && (forall j, k :: 0 <= j < k < |listed| ==> listed[j].id != listed[k].id)
    requires listed[i].state == Fillable
    ensures SweptRow(pricing, w, SweepAll(pricing, w, listed, choices), listed[i], choices(listed[i].id))
  {
    hide Attempted, Submits, Defers, Attempts, SweptRow;
    var n := |listed| - 1;
    var before := SweepAll(pricing, w, listed[..n], choices);
    if i < n {
      SweptAt(pricing, w, listed[..n], choices, i);
      SweptThen(pricing, w, before, listed[i], choices(listed[i].id), listed[n], choices(listed[n].id));
    } else {
      SweptElsewhere(pricing, w, listed[..n], choices, listed[n].id);
      SweptNow(pricing, w, before, listed[n], choices(listed[n].id));
    }
  }

  lemma SweptThen(pricing: Option<seq<Pricing>>, w: Sweep, v: Sweep, row: Row, c: Choice, next: Row, d: Choice)
    requires SweptRow(pricing, w, v, row, c) && next.id != row.id
    ensures SweptRow(pricing, w, SweepRow(pricing, v, next, d), row, c)
  {
    hide Attempted, Submits, Defers, Attempts;
  }

  lemma SweptNow(pricing: Option<seq<Pricing>>, w: Sweep, v: Sweep, row: Row, c: Choice)
    requires SameAt(w, v, row.id) && row.state == Fillable
    ensures SweptRow(pricing, w, SweepRow(pricing, v, row, c), row, c)
  {
    hide Attempted, Submits, Defers, Attempts;
  }

  // ---- a whole tick ----

  /** A row, how often it was submitted, and how often this process walked it back, and why. */
  datatype RowTally = RowTally(row: Row, submitted: nat, deferred: nat, recovered: nat)

  /** One tick's effect on one row, `n` deferrals after this process started. */
  ghost predicate Ticked(pricing: Option<seq<Pricing>>, before: RowTally, after: RowTally, c: Choice, n: nat) {
    && after.row == Swept(pricing, before.row, c, n)
    && after.submitted == before.submitted + (if Submits(pricing, before.row, c) then 1 else 0)
    && after.deferred == before.deferred + (if Defers(pricing, before.row, c, n) then 1 else 0)
    && after.recovered == before.recovered + (if WalkedBackByRecovery(before.row) then 1 else 0)
  }

  /** After recovery, a listed fillable row still stands as listed. */
  lemma RecoveredListing(rows: map<Id, Row>, listed: seq<Row>)
    requires ListsAll(rows, listed)
    ensures forall k :: 0 <= k < |listed| && listed[k].state == Fillable ==>
              listed[k].id in RecoveredRows(rows, listed) && RecoveredRows(rows, listed)[listed[k].id] == listed[k]
  {
    forall k | 0 <= k < |listed| && listed[k].state == Fillable
      ensures listed[k].id in RecoveredRows(rows, listed) && RecoveredRows(rows, listed)[listed[k].id] == listed[k]
    {
      RecoveredAt(rows, listed, k);
    }
  }

  /** The two halves together, for one id, listed or not. */
  ghost predicate TickedAt(pricing: Option<seq<Pricing>>, rows: map<Id, Row>, listed: seq<Row>, w: Sweep, v: Sweep, c: Choice,
                           walked: multiset<Id>, id: Id) {
    if id !in rows then id !in v.rows && walked[id] == 0 && SameAt(w, v, id)
    else
      var row, n := rows[id], Count(w.deferrals, id);
      && id in v.rows && v.rows[id] == Swept(pricing, row, c, n)
      && v.submitted[id] == w.submitted[id] + (if Submits(pricing, row, c) then 1 else 0)
      && v.deferred[id] == w.deferred[id] + (if Defers(pricing, row, c, n) then 1 else 0)
      && walked[id] == (if WalkedBackByRecovery(row) then 1 else 0)
      && Count(v.deferrals, id) == n + (if Defers(pricing, row, c, n) then 1 else 0)
  }

  lemma TickedEach(pricing: Option<seq<Pricing>>, rows: map<Id, Row>, listed: seq<Row>, w: Sweep, choices: Id -> Choice, id: Id)
    requires Keyed(rows) && ListsAll(rows, listed) && w.rows == RecoveredRows(rows, listed)
    ensures TickedAt(pricing, rows, listed, w, SweepAll(pricing, w, listed, choices), choices(id), RecoveredIds(listed), id)
  {
    hide SweepAll, RecoveredRows, RecoveredIds, WithinTolerance, Settled;
    if id !in rows || IsTerminal(rows[id].state) {
      forall k | 0 <= k < |listed| ensures listed[k].id != id {
      }
      RecoveredElsewhere(rows, listed, id);
      SweptElsewhere(pricing, w, listed, choices, id);
    } else {
      var k :| 0 <= k < |listed| && listed[k] == rows[id];
      RecoveredAt(rows, listed, k);
      if rows[id].state == Filling {
        SweptElsewhere(pricing, w, listed, choices, id);
      } else {
        SweptAt(pricing, w, listed, choices, k);
      }
    }
  }

  ghost predicate Pruned(deferrals: map<Id, nat>, kept: map<Id, nat>, listed: seq<Row>) {
    && (forall row :: row in listed ==> Count(kept, row.id) == Count(deferrals, row.id))
    && (forall id :: id in kept ==> exists row :: row in listed && row.id == id)
  }

  lemma KeyedNow(w: World)
    requires Safe(w)
    ensures Keyed(w.rows)
  {
  }

  /** The row is filled by this sweep. */
  predicate Fills(pricing: Option<seq<Pricing>>, row: Row, c: Choice) {
    Attempts(pricing, row, c) && c.settlement.Sent?
  }

  ghost function FilledOf(pricing: Option<seq<Pricing>>, listed: seq<Row>, choices: Id -> Choice): set<Id> {
    set row | row in listed && Fills(pricing, row, choices(row.id)) :: row.id
  }

  lemma {:induction false} SweepFills(pricing: Option<seq<Pricing>>, w: Sweep, listed: seq<Row>, choices: Id -> Choice)
    requires forall j, k :: 0 <= j < k < |listed| ==> listed[j].id != listed[k].id
    ensures SweepAll(pricing, w, listed, choices).filled == w.filled + |FilledOf(pricing, listed, choices)|
  {
    hide Attempted, Submits, Defers, Attempts, FilledOf;
    if listed == [] {
      FilledNone(pricing, choices);
    } else {
      SweepFills(pricing, w, listed[..|listed| - 1], choices);
      FilledOne(pricing, listed, choices);
      OnlyFillable(pricing, listed[|listed| - 1], choices(listed[|listed| - 1].id));
    }
  }

  lemma OnlyFillable(pricing: Option<seq<Pricing>>, row: Row, c: Choice)
    ensures Attempts(pricing, row, c) ==> row.state == Fillable
  {
  }

  lemma FillsWhat(pricing: Option<seq<Pricing>>, row: Row, c: Choice)
    ensures Fills(pricing, row, c) <==> Attempts(pricing, row, c) && c.settlement.Sent?
  {
  }

  lemma FilledNone(pricing: Option<seq<Pricing>>, choices: Id -> Choice)
    ensures FilledOf(pricing, [], choices) == {}
  {
  }

  lemma FilledWith(pricing: Option<seq<Pricing>>, earlier: seq<Row>, last: Row, choices: Id -> Choice)
    ensures FilledOf(pricing, earlier + [last], choices) ==
            FilledOf(pricing, earlier, choices) + if Fills(pricing, last, choices(last.id)) then {last.id} else {}
  {
    hide Fills;
    var all := earlier + [last];
    forall id ensures id in FilledOf(pricing, all, choices) <==>
                      id in FilledOf(pricing, earlier, choices) || (Fills(pricing, last, choices(last.id)) && id == last.id)
    {
      assert forall row :: row in all <==> row in earlier || row == last;
    }
  }

  lemma FilledOne(pricing: Option<seq<Pricing>>, listed: seq<Row>, choices: Id -> Choice)
    requires listed != [] && forall j, k :: 0 <= j < k < |listed| ==> listed[j].id != listed[k].id
    ensures var n := |listed| - 1;
            |FilledOf(pricing, listed, choices)| ==
            |FilledOf(pricing, listed[..n], choices)| + if Fills(pricing, listed[n], choices(listed[n].id)) then 1 else 0
  {
    hide Fills;
    var n := |listed| - 1;
    var last, earlier := listed[n], FilledOf(pricing, listed[..n], choices);
    assert listed == listed[..n] + [last];
    forall row | row in listed[..n] ensures row.id != last.id {
    }
    if Fills(pricing, last, choices(last.id)) {
      assert last.id !in earlier;
      FilledWith(pricing, listed[..n], last, choices);
      assert |earlier + {last.id}| == |earlier| + 1;
    } else {
      FilledWith(pricing, listed[..n], last, choices);
    }
  }

  /** A row becomes filled exactly when this sweep fills it. */
  lemma FilledIff(pricing: Option<seq<Pricing>>, rows: map<Id, Row>, listed: seq<Row>, w: Sweep, choices: Id -> Choice, id: Id)
    requires Keyed(rows) && ListsAll(rows, listed) && w.rows == RecoveredRows(rows, listed)
    ensures var v := SweepAll(pricing, w, listed, choices);
            && (id in rows ==> id in v.rows)
            && (id in FilledOf(pricing, listed, choices) <==>
                  id in rows && rows[id].state == Fillable && v.rows[id].state == Filled)
  {
    hide SweepAll, RecoveredRows, WithinTolerance, RecoveredIds;
    TickedEach(pricing, rows, listed, w, choices, id);
    if id in rows && rows[id].state == Fillable { assert rows[id] in listed; }
  }

  lemma FilledCounted(pricing: Option<seq<Pricing>>, rows: map<Id, Row>, listed: seq<Row>, w: Sweep, choices: Id -> Choice)
    requires Keyed(rows) && ListsAll(rows, listed) && w.rows == RecoveredRows(rows, listed)
    ensures var v := SweepAll(pricing, w, listed, choices);
            && (forall id :: id in rows ==> id in v.rows)
            && v.filled == w.filled + |set id | id in rows && rows[id].state == Fillable && v.rows[id].state == Filled|
  {
    hide SweepAll, RecoveredRows, FilledOf, Keyed;
    var v := SweepAll(pricing, w, listed, choices);
    SweepFills(pricing, w, listed, choices);
    forall id ensures id in rows ==> id in v.rows { FilledIff(pricing, rows, listed, w, choices, id); }
    var filled := set id | id in rows && rows[id].state == Fillable && v.rows[id].state == Filled;
    forall id ensures id in filled <==> id in FilledOf(pricing, listed, choices) {
      FilledIff(pricing, rows, listed, w, choices, id);
    }
    assert filled == FilledOf(pricing, listed, choices);
  }

  /** All a tick does, on values: each row's account moves as it should, and the process keeps its bounds. */
  lemma TickDone(pricing: Option<seq<Pricing>>, rows: map<Id, Row>, listed: seq<Row>, before: Sweep, deferrals: map<Id, nat>,
                 recovered: multiset<Id>, swept: bool, w: Sweep, choices: Id -> Choice)
    requires Keyed(rows) && ListsAll(rows, listed) && before.rows == rows
    requires Accounted(rows, deferrals, before.deferred, recovered, swept)
    requires w == Sweep(RecoveredRows(rows, listed), before.submitted, w.deferrals, before.deferred, 0)
    requires Pruned(deferrals, w.deferrals, listed)
    ensures var v, walked := SweepAll(pricing, w, listed, choices), recovered + RecoveredIds(listed);
            && v.rows.Keys == rows.Keys
            && (forall id :: id in rows ==>
                  Ticked(pricing, RowTally(rows[id], before.submitted[id], before.deferred[id], recovered[id]),
                         RowTally(v.rows[id], v.submitted[id], v.deferred[id], walked[id]), choices(id), Count(deferrals, id)))
            && v.filled == |set id | id in rows && rows[id].state == Fillable && v.rows[id].state == Filled|
            && Accounted(v.rows, v.deferrals, v.deferred, walked, true)
  {
    hide SweepAll, RecoveredRows, WithinTolerance, Swept, Submits, Defers, AccountedAt, RecoveredIds, Pruned, TickedAt, Ticked;
    var v, walked := SweepAll(pricing, w, listed, choices), recovered + RecoveredIds(listed);
    forall id ensures TickedAt(pricing, rows, listed, w, v, choices(id), RecoveredIds(listed), id) {
      TickedEach(pricing, rows, listed, w, choices, id);
    }
    SameKeys(pricing, rows, listed, w, v, choices, RecoveredIds(listed));
    FilledCounted(pricing, rows, listed, w, choices);
    forall id | id in rows
      ensures Ticked(pricing, RowTally(rows[id], before.submitted[id], before.deferred[id], recovered[id]),
                     RowTally(v.rows[id], v.submitted[id], v.deferred[id], walked[id]), choices(id), Count(deferrals, id))
    {
      assert TickedAt(pricing, rows, listed, w, v, choices(id), RecoveredIds(listed), id);
      TickedTally(pricing, rows, listed, before, deferrals, recovered, w, v, choices(id), id);
    }
    forall id ensures AccountedAt(v.rows, v.deferrals, v.deferred, walked, true, id) {
      assert AccountedAt(rows, deferrals, before.deferred, recovered, swept, id);
      StillAccounted(pricing, rows, listed, before, deferrals, recovered, swept, w, v, choices(id), id);
    }
  }

  lemma SameKeys(pricing: Option<seq<Pricing>>, rows: map<Id, Row>, listed: seq<Row>, w: Sweep, v: Sweep, choices: Id -> Choice,
                 walked: multiset<Id>)
    requires forall id :: TickedAt(pricing, rows, listed, w, v, choices(id), walked, id)
    ensures v.rows.Keys == rows.Keys
  {
    forall id ensures id in v.rows <==> id in rows {
      assert TickedAt(pricing, rows, listed, w, v, choices(id), walked, id);
    }
  }

  lemma TickedTally(pricing: Option<seq<Pricing>>, rows: map<Id, Row>, listed: seq<Row>, before: Sweep, deferrals: map<Id, nat>,
                    recovered: multiset<Id>, w: Sweep, v: Sweep, c: Choice, id: Id)
    requires Keyed(rows) && ListsAll(rows, listed) && id in rows
    requires TickedAt(pricing, rows, listed, w, v, c, RecoveredIds(listed), id)
    requires w.submitted == before.submitted && w.deferred == before.deferred && Pruned(deferrals, w.deferrals, listed)
    ensures id in v.rows
    ensures Ticked(pricing, RowTally(rows[id], before.submitted[id], before.deferred[id], recovered[id]),
                   RowTally(v.rows[id], v.submitted[id], v.deferred[id], (recovered + RecoveredIds(listed))[id]), c, Count(deferrals, id))
  {
    hide WithinTolerance, Settled, RecoveredIds;
    if !IsTerminal(rows[id].state) { assert rows[id] in listed && rows[id].id == id; }
  }

  lemma StillAccounted(pricing: Option<seq<Pricing>>, rows: map<Id, Row>, listed: seq<Row>, before: Sweep, deferrals: map<Id, nat>,
                       recovered: multiset<Id>, swept: bool, w: Sweep, v: Sweep, c: Choice, id: Id)
    requires Keyed(rows) && ListsAll(rows, listed) && AccountedAt(rows, deferrals, before.deferred, recovered, swept, id)
    requires TickedAt(pricing, rows, listed, w, v, c, RecoveredIds(listed), id)
    requires w.submitted == before.submitted && w.deferred == before.deferred && Pruned(deferrals, w.deferrals, listed)
    ensures AccountedAt(v.rows, v.deferrals, v.deferred, recovered + RecoveredIds(listed), true, id)
  {
    hide WithinTolerance, Settled, RecoveredIds;
    if id !in rows {
      NotListed(rows, listed, id);
    } else if !IsTerminal(rows[id].state) {
      assert rows[id] in listed && rows[id].id == id;
    }
  }

  lemma NotListed(rows: map<Id, Row>, listed: seq<Row>, id: Id)
    requires ListsAll(rows, listed) && id !in rows
    ensures forall row :: row in listed ==> row.id != id
  {
  }

  // ---- how often one process walks a row back ----

  /** The ticks of one process, seen by one row it starts with. */
  function TickedBy(pricing: Option<seq<Pricing>>, t: RowTally, choices: seq<Choice>): RowTally {
    if choices == [] then t
    else
      var before := TickedBy(pricing, t, choices[..|choices| - 1]);
      var c := choices[|choices| - 1];
      RowTally(
        Swept(pricing, before.row, c, before.deferred),
        before.submitted + (if Submits(pricing, before.row, c) then 1 else 0),
        before.deferred + (if Defers(pricing, before.row, c, before.deferred) then 1 else 0),
        before.recovered + (if WalkedBackByRecovery(before.row) then 1 else 0))
  }

  /** A row walks back at most 40 times after a deferral, and once more when it was found left behind. */
  lemma {:induction false} WalkBacksBounded(pricing: Option<seq<Pricing>>, row: Row, choices: seq<Choice>)
    ensures var t := TickedBy(pricing, RowTally(row, 0, 0, 0), choices);
            && t.deferred <= MAX_FILL_DEFERRALS
            && t.recovered <= (if WalkedBackByRecovery(row) then 1 else 0)
            && (choices == [] ==> t == RowTally(row, 0, 0, 0))
            && (choices != [] ==> t.row.state != Filling)
            && t.submitted <= 1 && (t.submitted > 0 ==> Burnt(t.row))
  {
    hide WithinTolerance, Settled;
    if choices != [] {
      WalkBacksBounded(pricing, row, choices[..|choices| - 1]);
      var before := TickedBy(pricing, RowTally(row, 0, 0, 0), choices[..|choices| - 1]);
      SubmittingBurns(pricing, before.row, choices[|choices| - 1], before.deferred);
    }
  }

  lemma SubmittingBurns(pricing: Option<seq<Pricing>>, row: Row, c: Choice, n: nat)
    ensures Submits(pricing, row, c) ==> !Burnt(row) && Burnt(Swept(pricing, row, c, n))
    ensures Burnt(row) ==> Burnt(Swept(pricing, row, c, n))
  {
  }

  /** Every sweep finds the float short. */
  function AlwaysShort(n: nat): (r: seq<Choice>)
    ensures |r| == n && forall i :: 0 <= i < n ==> r[i] == Choice(true, true, Short)
  {
    seq(n, i => Choice(true, true, Short))
  }

  /** Both bounds are met at once: 41 walk-backs in one process, and the sweep after that gives the row up. */
  lemma {:induction false} FortyOneWalkBacks(row: Row, n: nat)
    requires WalkedBackByRecovery(row)
    ensures var t := TickedBy(None, RowTally(row, 0, 0, 0), AlwaysShort(n));
            t == if n == 0 then RowTally(row, 0, 0, 0)
                 else if n <= MAX_FILL_DEFERRALS + 1 then RowTally(Reverted(row), 0, n - 1, 1)
                 else RowTally(Moved(Claimed(Reverted(row)), Stuck, NOTHING), 0, MAX_FILL_DEFERRALS, 1)
  {
    if n > 0 {
      assert AlwaysShort(n)[..n - 1] == AlwaysShort(n - 1);
      FortyOneWalkBacks(row, n - 1);
    }
  }
}
