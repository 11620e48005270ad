/**
 * Paying out of the Arkade float: inputs are pinned one at a time, largest first, until a
 * quote is covered; whatever other spenders do meanwhile, what is sent fits the quote.
 */
module ArkadeWithdrawals {
  import opened Util
  import opened Reservations
  import opened CoinSpenders

  const MAX_WITHDRAWAL_INPUTS: nat := 50

  datatype Candidate = Candidate(coin: Coin, value: nat)

  datatype Rail = OverArkade | Onchain

  /** `total` and `fee` are `None` where they are no safe integer. */
  datatype Quote = Quote(rail: Rail, amount: int, total: Option<int>, fee: Option<int>)

  /** The server's dust, its smallest output, and its per-output ceiling; no ceiling when not positive. */
  datatype Limits = Limits(dust: nat, minimumVtxo: nat, maximumChange: int)

  /** What one round of the loop meets: the listing, who moves while it is read and while it is quoted, and the quote. */
  datatype Round = Round(listing: Turn, candidates: seq<Candidate>, quoting: Turn, offered: Quote)

  datatype Refusal =
    | AllPinned
    | TooManyInputs
    | InvalidAmount
    | InvalidFee
    | NotEnough
    | ChangeBelowDust
    | ChangeAboveCeiling
    | NotAnnounced

  datatype Withdrawal =
    | Paid(inputs: seq<Candidate>, quote: Quote, txid: nat)
    | OutcomeUnknown(inputs: seq<Candidate>, quote: Quote)
    | NotSent(refusal: Refusal)

  function Sum(coins: seq<Candidate>): nat {
    if coins == [] then 0 else Sum(coins[..|coins| - 1]) + coins[|coins| - 1].value
  }

  function CoinsOf(selected: seq<Candidate>): (r: seq<Coin>)
    ensures |r| == |selected| && forall i :: 0 <= i < |r| ==> r[i] == selected[i].coin
  {
    seq(|selected|, i requires 0 <= i < |selected| => selected[i].coin)
  }

  function MinimumChange(limits: Limits, rail: Rail): nat {
    if rail == Onchain && limits.dust > limits.minimumVtxo then limits.dust else limits.minimumVtxo
  }

  predicate QuoteValid(q: Quote, amount: nat) {
    q.total.Some? && q.total.value >= amount && q.amount == amount
  }

  /** What is left over after `q` is none at all, or an output the server takes. */
  predicate ChangeFits(limits: Limits, q: Quote, held: nat)
    requires q.total.Some?
  {
    var change := held - q.total.value;
    change == 0
    || (change >= MinimumChange(limits, q.rail) && change > 0
        && (q.rail == Onchain && limits.maximumChange > 0 ==> change <= limits.maximumChange))
  }

  function FirstFree(candidates: seq<Candidate>, reserved: set<Coin>): (r: Option<Candidate>)
    ensures r.Some? ==> r.value in candidates && r.value.coin !in reserved
    ensures r.None? ==> forall c :: c in candidates ==> c.coin in reserved
  {
    if candidates == [] then None
    else if candidates[0].coin !in reserved then Some(candidates[0])
    else FirstFree(candidates[1..], reserved)
  }

  /** Each selected coin is pinned under a ticket of its own. */
  ghost predicate HoldsEach(live: map<Ticket, seq<Coin>>, tickets: seq<Ticket>, selected: seq<Candidate>) {
    |tickets| == |selected|
    && forall k :: 0 <= k < |selected| ==> tickets[k] in live && live[tickets[k]] == [selected[k].coin]
  }

  ghost predicate DistinctCoins(selected: seq<Candidate>) {
    forall j, k :: 0 <= j < k < |selected| ==> selected[j].coin != selected[k].coin
  }

  function TicketSet(tickets: seq<Ticket>): set<Ticket> {
    set t | t in tickets
  }

  /** What a withdrawal sends: its own distinct coins, covering the quote, with change the server takes. */
  ghost predicate Sound(amount: nat, limits: Limits, inputs: seq<Candidate>, q: Quote) {
    && 1 <= |inputs| <= MAX_WITHDRAWAL_INPUTS && DistinctCoins(inputs)
    && QuoteValid(q, amount) && q.fee.Some? && q.fee.value >= 0
    && ChangeFits(limits, q, Sum(inputs))
  }

  /** What the quote makes of the coins selected so far: pay it, add a coin, or give up. */
  datatype Verdict = Pay | AddCoin(refusal: Refusal) | GiveUp(refusal: Refusal)

  function Judge(amount: nat, limits: Limits, q: Quote, held: nat): (v: Verdict)
    ensures v.Pay? <==> QuoteValid(q, amount) && ChangeFits(limits, q, held)
    ensures v.GiveUp? ==> !QuoteValid(q, amount) || held > q.total.value
  {
    if q.total.None? || q.total.value < amount || q.amount != amount then GiveUp(InvalidAmount)
    else
      var change := held - q.total.value;
      if change < 0 then AddCoin(NotEnough)
      else if change > 0 && change < MinimumChange(limits, q.rail) then AddCoin(ChangeBelowDust)
      else if q.rail == Onchain && limits.maximumChange > 0 && change > limits.maximumChange then GiveUp(ChangeAboveCeiling)
      else Pay
  }

  lemma Selected(live: map<Ticket, seq<Coin>>, tickets: seq<Ticket>, selected: seq<Candidate>, next: Ticket, c: Candidate)
    requires HoldsEach(live, tickets, selected) && DistinctCoins(selected)
    requires next !in live && forall t :: t in live ==> c.coin !in live[t]
    ensures HoldsEach(live[next := [c.coin]], tickets + [next], selected + [c]) && DistinctCoins(selected + [c])
    ensures TicketSet(tickets + [next]) == TicketSet(tickets) + {next}
    ensures Sum(selected + [c]) == Sum(selected) + c.value
  {
    forall k | 0 <= k < |selected| ensures selected[k].coin != c.coin {
      assert selected[k].coin in live[tickets[k]];
    }
    assert (selected + [c])[..|selected|] == selected;
  }

  lemma HeldInputs(live: map<Ticket, seq<Coin>>, tickets: seq<Ticket>, selected: seq<Candidate>)
    requires HoldsEach(live, tickets, selected)
    ensures TicketSet(tickets) <= live.Keys
    ensures forall c :: c in CoinsOf(selected) ==> exists t :: t in TicketSet(tickets) && c in live[t]
  {
    forall c | c in CoinsOf(selected) ensures exists t :: t in TicketSet(tickets) && c in live[t] {
      var k :| 0 <= k < |selected| && CoinsOf(selected)[k] == c;
      assert tickets[k] in TicketSet(tickets) && c in live[tickets[k]];
    }
  }

  lemma StillHeld(before: map<Ticket, seq<Coin>>, live: map<Ticket, seq<Coin>>, tickets: seq<Ticket>, selected: seq<Candidate>)
    requires HoldsEach(before, tickets, selected)
    requires TicketSet(tickets) <= live.Keys && forall t :: t in TicketSet(tickets) ==> live[t] == before[t]
    ensures HoldsEach(live, tickets, selected)
  {
  }

  /** Every pin a withdrawal took is released, whichever way it ends. */
  method ReleaseAll(wallet: Wallet, tickets: seq<Ticket>, ghost from: Ticket)
    requires wallet.Valid() && forall t :: t in tickets ==> from <= t < wallet.ledger.next
    modifies wallet.ledger
    ensures wallet.Valid() && Gone(TicketSet(tickets), wallet.ledger.live, from, wallet.ledger.next)
    ensures wallet.ledger.next == old(wallet.ledger.next)
  {
    for i := 0 to |tickets|
      invariant wallet.Valid() && wallet.ledger.next == old(wallet.ledger.next)
      invariant forall k :: 0 <= k < i ==> tickets[k] !in wallet.ledger.live
    {
      wallet.Release(tickets[i]);
    }
  }

  /** An await while every selected coin stays pinned. */
  method WaitHolding(wallet: Wallet, turn: Turn, tickets: seq<Ticket>, selected: seq<Candidate>)
    requires wallet.Valid() && HoldsEach(wallet.ledger.live, tickets, selected)
    modifies wallet.ledger
    ensures wallet.Valid() && HoldsEach(wallet.ledger.live, tickets, selected) && wallet.ledger.next >= old(wallet.ledger.next)
  {
    HeldInputs(wallet.ledger.live, tickets, selected);
    ghost var before := wallet.ledger.live;
    wallet.Await(turn, TicketSet(tickets), {}, 0);
    StillHeld(before, wallet.ledger.live, tickets, selected);
  }

  /** Pin one more coin, free a moment ago and so free still. */
  method PinOne(wallet: Wallet, tickets: seq<Ticket>, selected: seq<Candidate>, c: Candidate)
    returns (t: Ticket)
    requires wallet.Valid() && HoldsEach(wallet.ledger.live, tickets, selected) && DistinctCoins(selected)
    requires c.coin !in wallet.ledger.Reserved()
    modifies wallet.ledger
    ensures wallet.Valid() && HoldsEach(wallet.ledger.live, tickets + [t], selected + [c]) && DistinctCoins(selected + [c])
    ensures old(wallet.ledger.next) <= t < wallet.ledger.next
  {
    ghost var before := wallet.ledger.live;
    var pinned := wallet.PinInputs([c.coin]);
    t := pinned.value;
    Selected(before, tickets, selected, t, c);
  }

  lemma NothingSelected(live: map<Ticket, seq<Coin>>)
    ensures HoldsEach(live, [], []) && DistinctCoins([])
  {
  }

  /** Every earlier quote asked for another coin. */
  ghost predicate AllAskedForMore(amount: nat, limits: Limits, rounds: nat -> Round, selected: seq<Candidate>, n: nat)
    requires n <= |selected|
  {
    forall k :: 1 <= k <= n ==> Judge(amount, limits, rounds(k - 1).offered, Sum(selected[..k])).AddCoin?
  }

  lemma AskedOnceMore(amount: nat, limits: Limits, rounds: nat -> Round, selected: seq<Candidate>, c: Candidate)
    requires AllAskedForMore(amount, limits, rounds, selected, |selected|)
    ensures AllAskedForMore(amount, limits, rounds, selected + [c], |selected|)
    ensures Judge(amount, limits, rounds(|selected|).offered, Sum(selected + [c])).AddCoin? ==>
              AllAskedForMore(amount, limits, rounds, selected + [c], |selected| + 1)
  {
    var all := selected + [c];
    assert forall k :: 0 <= k <= |selected| ==> all[..k] == selected[..k];
    assert all[..|all|] == all;
  }

  /**
   * Grow the selection until a quote fits it. Each added coin is pinned before the quote is
   * awaited, so no other spender can claim it; the loop ends because it adds a coin each round.
   */
  method SelectInputs(wallet: Wallet, amount: nat, limits: Limits, rounds: nat -> Round)
    returns (r: Result<Quote, Refusal>, selected: seq<Candidate>, tickets: seq<Ticket>)
    requires wallet.Valid()
    modifies wallet.ledger
    ensures wallet.Valid() && HoldsEach(wallet.ledger.live, tickets, selected) && DistinctCoins(selected)
    ensures forall t :: t in tickets ==> old(wallet.ledger.next) <= t < wallet.ledger.next
    ensures r.Ok? ==>
              && 1 <= |selected| <= MAX_WITHDRAWAL_INPUTS
              && r.value == rounds(|selected| - 1).offered
              && QuoteValid(r.value, amount) && ChangeFits(limits, r.value, Sum(selected))
              && AllAskedForMore(amount, limits, rounds, selected, |selected| - 1)
    ensures r == Err(AllPinned) <==> selected == []
    ensures r == Err(TooManyInputs) ==> |selected| == MAX_WITHDRAWAL_INPUTS
  {
    hide Apart, Proper, Pinned, Counts, Wallet.Valid, HoldsEach, DistinctCoins, Judge, ChangeFits, AllAskedForMore, QuoteValid;
    ghost var from := wallet.ledger.next;
    selected, tickets := [], [];
    var refusal := AllPinned;
    NothingSelected(wallet.ledger.live);
    NothingAsked(amount, limits, rounds);
    while true
      invariant wallet.Valid() && HoldsEach(wallet.ledger.live, tickets, selected) && DistinctCoins(selected)
      invariant |selected| <= MAX_WITHDRAWAL_INPUTS && from <= wallet.ledger.next
      invariant forall t :: t in tickets ==> from <= t < wallet.ledger.next
      invariant (refusal == AllPinned <==> selected == []) && refusal != TooManyInputs
      invariant AllAskedForMore(amount, limits, rounds, selected, |selected|)
      decreases MAX_WITHDRAWAL_INPUTS - |selected|
    {
      var round := rounds(|selected|);
      WaitHolding(wallet, round.listing, tickets, selected);
      LedgerOf(wallet);
      var candidate := FirstFree(round.candidates, wallet.ledger.Reserved());
      if candidate.None? { return Err(refusal), selected, tickets; }
      if |selected| == MAX_WITHDRAWAL_INPUTS { return Err(TooManyInputs), selected, tickets; }
      AskedOnceMore(amount, limits, rounds, selected, candidate.value);
      var t := PinOne(wallet, tickets, selected, candidate.value);
      tickets, selected := tickets + [t], selected + [candidate.value];
      WaitHolding(wallet, round.quoting, tickets, selected);
      JudgeSays(amount, limits, round.offered, Sum(selected));
      var verdict := Judge(amount, limits, round.offered, Sum(selected));
      match verdict
      case Pay => return Ok(round.offered), selected, tickets;
      case GiveUp(why) => return Err(why), selected, tickets;
      case AddCoin(why) => refusal := why;
    }
  }

  lemma LedgerOf(wallet: Wallet)
    requires wallet.Valid()
    ensures wallet.ledger.Valid()
  {
  }

  lemma NothingAsked(amount: nat, limits: Limits, rounds: nat -> Round)
    ensures AllAskedForMore(amount, limits, rounds, [], 0)
  {
  }

  lemma JudgeSays(amount: nat, limits: Limits, q: Quote, held: nat)
    ensures var v := Judge(amount, limits, q, held);
            && (v.Pay? <==> QuoteValid(q, amount) && ChangeFits(limits, q, held))
            && (v.AddCoin? ==> v.refusal != AllPinned && v.refusal != TooManyInputs)
            && (v.GiveUp? ==> v.refusal != AllPinned && v.refusal != TooManyInputs)
  {
  }

  /**
   * Pay exactly `amount` out of the float, to the address the quotes were made for. Others may
   * move while the send is being announced, and again while it is under way.
   */
  method ArkadeWithdraw(wallet: Wallet, amount: nat, limits: Limits, rounds: nat -> Round,
                        announcing: Turn, announced: bool, sending: Turn, settled: Option<nat>)
    returns (r: Withdrawal, ghost mine: set<Ticket>)
    requires wallet.Valid()
    modifies wallet.ledger, wallet`sends
    ensures wallet.Valid() && Gone(mine, wallet.ledger.live, old(wallet.ledger.next), wallet.ledger.next)
    ensures r.NotSent? ==> wallet.sends == old(wallet.sends)
    ensures !r.NotSent? ==>
              && Sound(amount, limits, r.inputs, r.quote)
              && |wallet.sends| == |old(wallet.sends)| + 1 && old(wallet.sends) <= wallet.sends
              && wallet.sends[|old(wallet.sends)|].inputs == CoinsOf(r.inputs)
              && wallet.sends[|old(wallet.sends)|].mine == mine
              && r.quote == rounds(|r.inputs| - 1).offered
              && AllAskedForMore(amount, limits, rounds, r.inputs, |r.inputs| - 1)
    ensures r.Paid? <==> !r.NotSent? && settled.Some?
  {
    hide Apart, Proper, Pinned, Counts, Wallet.Valid, ReservationLedger.Valid, DistinctCoins, AllAskedForMore, ChangeFits, Gone;
    ghost var from := wallet.ledger.next;
    var quote, selected, tickets := SelectInputs(wallet, amount, limits, rounds);
    mine := TicketSet(tickets);
    if quote.Err? {
      r := NotSent(quote.error);
    } else if quote.value.fee.None? || quote.value.fee.value < 0 {
      r := NotSent(InvalidFee);
    } else {
      WaitHolding(wallet, announcing, tickets, selected);
      if !announced {
        r := NotSent(NotAnnounced);
      } else {
        HeldInputs(wallet.ledger.live, tickets, selected);
        NoneGone(wallet.ledger.live, from, wallet.ledger.next);
        wallet.Spend(CoinsOf(selected), TicketSet(tickets), sending, {}, from);
        r := if settled.Some? then Paid(selected, quote.value, settled.value) else OutcomeUnknown(selected, quote.value);
      }
    }
    ReleaseAll(wallet, tickets, from);
  }

  lemma NoneGone(live: map<Ticket, seq<Coin>>, from: Ticket, next: Ticket)
    ensures Gone({}, live, from, next)
  {
  }
}
