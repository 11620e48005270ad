/**
 * The spenders that share one wallet and one ledger. Checking and pinning is one step; around
 * every other await any number of others may pin and release, and still no two running
 * spenders hold a coin in common, and each spends only coins it holds.
 */
module CoinSpenders {
  import opened Util
  import opened Reservations

  /** Reservations not released yet hold no coin in common. */
  ghost predicate Apart(live: map<Ticket, seq<Coin>>) {
    forall t, u :: t in live && u in live && t != u ==> forall c :: c in live[t] ==> c !in live[u]
  }

  /** One call that spends: its named inputs, and who held what at that moment. */
  datatype Send = Send(inputs: seq<Coin>, mine: set<Ticket>, live: map<Ticket, seq<Coin>>)

  /** Every input is held by the spender, and by nobody else. */
  ghost predicate Proper(s: Send) {
    && Apart(s.live) && s.mine <= s.live.Keys
    && forall c :: c in s.inputs ==> exists t :: t in s.mine && c in s.live[t]
  }

  /** A proper spend names no coin that anybody else holds. */
  lemma NobodyElseHolds(s: Send, t: Ticket)
    requires Proper(s) && t in s.live && t !in s.mine
    ensures forall c :: c in s.inputs ==> c !in s.live[t]
  {
    forall c | c in s.inputs ensures c !in s.live[t] {
      var u :| u in s.mine && c in s.live[u];
    }
  }

  /** What someone else does while this spender waits. */
  datatype Move = Pin(coins: seq<Coin>) | Free(ticket: Ticket)

  type Turn = seq<Move>

  datatype PoolPlan = PoolPlan(outputs: seq<nat>, inputs: seq<Coin>)

  datatype Answer = Accepted(txid: nat) | TooHeavy | Threw

  datatype MintOutcome =
    | Minted(outputs: seq<nat>, spent: seq<Coin>, txid: nat, committedSats: nat)
    | NothingToDo
    | InputsPinned
    | RefusedCommitted(committedSats: nat)
    | RefusedTooHeavy(committedSats: nat)
    | RefusedSmallerPlan(committedSats: nat)
    | Failed

  const MINT_INPUTS: nat := 50

  /** How many tries halving an input cap of `m` allows. */
  function Tries(m: nat): (r: nat)
    ensures r >= 1
  {
    if m <= 1 then 1 else 1 + Tries(m / 2)
  }

  lemma {:induction false} FewerInputsFewerTries(a: nat, b: nat)
    requires a <= b
    ensures Tries(a) <= Tries(b)
  {
    if a > 1 { FewerInputsFewerTries(a / 2, b / 2); }
  }

  lemma SixTries()
    ensures Tries(MINT_INPUTS) == 6
  {
    assert Tries(1) == 1 && Tries(3) == 2 && Tries(6) == 3 && Tries(12) == 4 && Tries(25) == 5;
  }

  /** The spends made since `earlier`: all under pins of `mine`, each naming at most half as many coins as the one before. */
  ghost predicate Halving(earlier: seq<Send>, sends: seq<Send>, mine: set<Ticket>) {
    && earlier <= sends
    && (forall i :: |earlier| <= i < |sends| ==> sends[i].mine <= mine)
    && forall i, j :: |earlier| <= i && j == i + 1 < |sends| ==> 2 * |sends[j].inputs| <= |sends[i].inputs|
  }

  lemma HalvingStep(earlier: seq<Send>, sends: seq<Send>, mine: set<Ticket>, s: Send)
    requires Halving(earlier, sends, mine)
    requires |sends| > |earlier| ==> 2 * |s.inputs| <= |sends[|sends| - 1].inputs|
    ensures Halving(earlier, sends + [s], mine + s.mine)
  {
  }

  /** Pins taken since `from`, every one released and none ever to come back. */
  ghost predicate Gone(gone: set<Ticket>, live: map<Ticket, seq<Coin>>, from: Ticket, next: Ticket) {
    gone !! live.Keys && forall t :: t in gone ==> from <= t < next
  }

  class Wallet {
    const ledger: ReservationLedger
    ghost var sends: seq<Send>

    ghost predicate Valid()
      reads this, ledger
    {
      ledger.Valid() && Apart(ledger.live) && forall s :: s in sends ==> Proper(s)
    }

    constructor (ledger: ReservationLedger)
      requires ledger.Valid() && Apart(ledger.live)
      ensures Valid() && this.ledger == ledger && sends == []
    {
      this.ledger := ledger;
      sends := [];
    }

    /** Nobody can have pinned what `coins` names since it was last looked at: check and pin are one step. */
    method PinInputs(coins: seq<Coin>) returns (t: Option<Ticket>)
      requires Valid()
      modifies ledger
      ensures Valid()
      ensures t.None? <==> exists c :: c in coins && c in old(ledger.Reserved())
      ensures t.None? ==> ledger.live == old(ledger.live) && ledger.next == old(ledger.next)
      ensures t.Some? ==> t.value !in old(ledger.live) && ledger.live == old(ledger.live)[t.value := coins]
      ensures t.Some? ==> old(ledger.next) <= t.value < ledger.next
    {
      if exists c :: c in coins && c in ledger.Reserved() { return None; }
      var ticket := ledger.Reserve(coins);
      t := Some(ticket);
    }

    method Release(t: Ticket)
      requires Valid()
      modifies ledger
      ensures Valid() && ledger.live == old(ledger.live) - {t} && ledger.next == old(ledger.next)
    {
      ledger.Release(t);
    }

    /** An await: others pin what nobody holds and release what is theirs, as often as they like. */
    method Await(turn: Turn, mine: set<Ticket>, ghost gone: set<Ticket>, ghost from: Ticket)
      requires Valid() && mine <= ledger.live.Keys && Gone(gone, ledger.live, from, ledger.next)
      modifies ledger
      ensures Valid() && mine <= ledger.live.Keys && Gone(gone, ledger.live, from, ledger.next) && ledger.next >= old(ledger.next)
      ensures forall t :: t in mine ==> ledger.live[t] == old(ledger.live)[t]
    {
      for i := 0 to |turn|
        invariant Valid() && mine <= ledger.live.Keys && Gone(gone, ledger.live, from, ledger.next) && ledger.next >= old(ledger.next)
        invariant forall t :: t in mine ==> ledger.live[t] == old(ledger.live)[t]
      {
        match turn[i]
        case Pin(coins) => var _ := PinInputs(coins);
        case Free(t) => if t !in mine { Release(t); }
      }
    }

    /** The call that spends `inputs`; others go on while it is under way. */
    method Spend(inputs: seq<Coin>, mine: set<Ticket>, turn: Turn, ghost gone: set<Ticket>, ghost from: Ticket)
      requires Valid() && mine <= ledger.live.Keys && Gone(gone, ledger.live, from, ledger.next)
      requires forall c :: c in inputs ==> exists t :: t in mine && c in ledger.live[t]
      modifies ledger, this`sends
      ensures Valid() && mine <= ledger.live.Keys && Gone(gone, ledger.live, from, ledger.next) && ledger.next >= old(ledger.next)
      ensures forall t :: t in mine ==> ledger.live[t] == old(ledger.live)[t]
      ensures sends == old(sends) + [Send(inputs, mine, old(ledger.live))]
    {
      sends := sends + [Send(inputs, mine, ledger.live)];
      Await(turn, mine, gone, from);
    }

    /**
     * A spend with named inputs, as mint, re-split and renewal make it: pin them all or none,
     * spend exactly them, and release on every way out. `None` when one of them was taken;
     * `mine` is every pin it took.
     */
    method SpendPinned(inputs: seq<Coin>, turn: Turn, answer: Answer, ghost gone: set<Ticket>, ghost from: Ticket)
      returns (a: Option<Answer>, ghost mine: set<Ticket>)
      requires Valid() && Gone(gone, ledger.live, from, ledger.next) && from <= ledger.next
      modifies ledger, this`sends
      ensures Valid() && Gone(gone + mine, ledger.live, from, ledger.next) && ledger.next >= old(ledger.next)
      ensures a.None? <==> exists c :: c in inputs && c in old(ledger.Reserved())
      ensures a.None? ==> sends == old(sends) && ledger.live == old(ledger.live) && mine == {}
      ensures a.Some? ==> a.value == answer && sends == old(sends) + [Send(inputs, mine, SpentIn(sends))]
    {
      mine := {};
      var t := PinInputs(inputs);
      if t.None? { return None, mine; }
      mine := {t.value};
      Spend(inputs, {t.value}, turn, gone, from);
      Release(t.value);
      a := Some(answer);
    }

    /** Who held what at the last spend. */
    ghost function SpentIn(sends: seq<Send>): map<Ticket, seq<Coin>> {
      if sends == [] then map[] else sends[|sends| - 1].live
    }

    /** One pass up to the pin: read the plan, then what is committed, then the address to pay. */
    method Consult(ungated: bool, k: nat, maxInputs: nat, before: nat, plans: (nat, nat) -> PoolPlan, committed: nat -> nat,
                   turns: (nat, nat) -> Turn, ghost gone: set<Ticket>, ghost from: Ticket)
      returns (stop: Option<MintOutcome>, plan: PoolPlan, committedSats: nat)
      requires Valid() && Gone(gone, ledger.live, from, ledger.next)
      modifies ledger
      ensures Valid() && Gone(gone, ledger.live, from, ledger.next) && ledger.next >= old(ledger.next)
      ensures plan == plans(k, maxInputs)
      ensures stop == if plan.outputs == [] then Some(if maxInputs == MINT_INPUTS then NothingToDo else RefusedSmallerPlan(before))
                      else if committed(k) > 0 && !ungated then Some(RefusedCommitted(committed(k)))
                      else None
      ensures stop.None? ==> committedSats == committed(k)
    {
      Await(turns(k, 0), {}, gone, from);
      plan, committedSats := plans(k, maxInputs), before;
      if plan.outputs == [] {
        return Some(if maxInputs == MINT_INPUTS then NothingToDo else RefusedSmallerPlan(before)), plan, before;
      }
      Await(turns(k, 1), {}, gone, from);
      committedSats := committed(k);
      if committedSats > 0 && !ungated { return Some(RefusedCommitted(committedSats)), plan, committedSats; }
      Await(turns(k, 2), {}, gone, from);
      stop := None;
    }

    /**
     * Reshape the float by a named-input self-payment, halving the input cap each time the
     * transaction is too heavy: at most six tries, and no pin left behind by any of them.
     */
    method MintPool(ungated: bool, plans: (nat, nat) -> PoolPlan, committed: nat -> nat, turns: (nat, nat) -> Turn,
                    answers: nat -> Answer)
      returns (r: MintOutcome, ghost mine: set<Ticket>)
      requires Valid()
      requires forall k, m :: |plans(k, m).inputs| <= m
      modifies ledger, this`sends
      ensures Valid() && Gone(mine, ledger.live, old(ledger.next), ledger.next)
      ensures Halving(old(sends), sends, mine) && |sends| <= |old(sends)| + 6
      ensures r.Minted? ==> Spent(r.spent, |old(sends)|) && |r.spent| <= MINT_INPUTS && r.outputs != []
      ensures r.Minted? && !ungated ==> r.committedSats == 0
      ensures r.NothingToDo? ==> sends == old(sends)
      ensures r.RefusedTooHeavy? ==> |sends| > |old(sends)| && |sends[|sends| - 1].inputs| <= 1
      ensures r.RefusedSmallerPlan? ==> |sends| > |old(sends)|
    {
      hide Apart, Proper, Halving, Pinned, Counts, Gone, Wallet.Valid, ReservationLedger.Valid;
      var maxInputs: nat, k: nat, committedSats: nat := MINT_INPUTS, 0, 0;
      mine := {};
      NoneTaken(ledger.live, ledger.next);
      SixTries();
      NoHalving(sends);
      ghost var from := ledger.next;
      while true
        invariant Valid() && Gone(mine, ledger.live, from, ledger.next) && from <= ledger.next
        invariant Halving(old(sends), sends, mine) && |sends| == |old(sends)| + k
        invariant k + Tries(maxInputs) <= 6 && maxInputs <= MINT_INPUTS && (k == 0 <==> maxInputs == MINT_INPUTS)
        invariant k == 0 ==> sends == old(sends)
        invariant k > 0 ==> 2 * maxInputs <= |sends[|sends| - 1].inputs|
        decreases maxInputs
      {
        var stop, plan, sats := Consult(ungated, k, maxInputs, committedSats, plans, committed, turns, mine, from);
        if stop.Some? { return stop.value, mine; }
        committedSats := sats;
        ghost var before := sends;
        var answer, taken := SpendPinned(plan.inputs, turns(k, 3), answers(k), mine, from);
        if answer.None? {
          assert mine + taken == mine;
          return InputsPinned, mine;
        }
        HalvingStep(old(sends), before, mine, sends[|sends| - 1]);
        mine := mine + taken;
        match answer.value
        case Accepted(txid) => return Minted(plan.outputs, plan.inputs, txid, committedSats), mine;
        case Threw => return Failed, mine;
        case TooHeavy =>
          if |plan.inputs| <= 1 { return RefusedTooHeavy(committedSats), mine; }
          FewerInputsFewerTries(|plan.inputs| / 2, maxInputs / 2);
          maxInputs, k := |plan.inputs| / 2, k + 1;
      }
    }

    /** The last spend, made since there were `n`, named exactly `coins`. */
    ghost predicate Spent(coins: seq<Coin>, n: nat)
      reads this
    {
      |sends| > n && sends[|sends| - 1].inputs == coins
    }

    /** After a renewal: one split, planned and pinned like a mint, with no gate and no retry. */
    method ResplitFloat(plan: PoolPlan, planning: Turn, addressing: Turn, sending: Turn, answer: Answer)
      returns (r: MintOutcome, ghost mine: set<Ticket>)
      requires Valid()
      modifies ledger, this`sends
      ensures Valid() && Gone(mine, ledger.live, old(ledger.next), ledger.next)
      ensures r.NothingToDo? <==> plan.outputs == []
      ensures r.NothingToDo? || r.InputsPinned? ==> sends == old(sends)
      ensures r.Minted? <==> answer.Accepted? && |sends| > |old(sends)|
      ensures !r.NothingToDo? && !r.InputsPinned? ==> |sends| == |old(sends)| + 1 && Spent(plan.inputs, |old(sends)|) && sends[|old(sends)|].mine <= mine
    {
      mine := {};
      ghost var from := ledger.next;
      Await(planning, {}, mine, from);
      if plan.outputs == [] { return NothingToDo, mine; }
      Await(addressing, {}, mine, from);
      var a;
      a, mine := SpendPinned(plan.inputs, sending, answer, {}, from);
      r := if a.None? then InputsPinned
           else if a.value.Accepted? then Minted(plan.outputs, plan.inputs, a.value.txid, 0)
           else Failed;
    }

    /** The settle of a renewal: it yields to a funding that pinned one of its coins since it chose them. */
    method SettleRenewal(inputs: seq<Coin>, choosing: Turn, settling: Turn, answer: Answer)
      returns (r: Option<Answer>, ghost mine: set<Ticket>)
      requires Valid()
      modifies ledger, this`sends
      ensures Valid() && Gone(mine, ledger.live, old(ledger.next), ledger.next)
      ensures r.None? ==> sends == old(sends)
      ensures r.Some? ==> Spent(inputs, |old(sends)|) && sends[|sends| - 1].mine <= mine
    {
      ghost var from := ledger.next;
      Await(choosing, {}, {}, from);
      r, mine := SpendPinned(inputs, settling, answer, {}, from);
    }

    /**
     * A swap funding or an offer fill: it picks among the coins nobody holds and pins its pick
     * in the same step, so it never waits for a coin and never takes one from a spender.
     */
    method FundFrom(spendable: seq<Coin>, choose: seq<Coin> -> seq<Coin>, reading: Turn, sending: Turn, answer: Answer)
      returns (r: Option<Answer>, ghost mine: set<Ticket>)
      requires Valid()
      requires forall free, c :: c in choose(free) ==> c in free
      modifies ledger, this`sends
      ensures Valid() && Gone(mine, ledger.live, old(ledger.next), ledger.next)
      ensures r.None? ==> sends == old(sends)
      ensures (forall free :: choose(free) != []) ==> r.Some?
      ensures r.Some? ==> r.value == answer && |sends| == |old(sends)| + 1 && sends[|old(sends)|].mine <= mine
                          && sends[|old(sends)|].inputs != [] && forall c :: c in sends[|old(sends)|].inputs ==> c in spendable
    {
      ghost var from := ledger.next;
      Await(reading, {}, {}, from);
      var held := ledger.Reserved();
      var picked := choose(Filter(spendable, (c: Coin) => c !in held));
      mine := {};
      if picked == [] { return None, mine; }
      r, mine := SpendPinned(picked, sending, answer, {}, from);
    }
  }

  lemma NoHalving(sends: seq<Send>)
    ensures Halving(sends, sends, {})
  {
  }

  lemma NoneTaken(live: map<Ticket, seq<Coin>>, next: Ticket)
    ensures Gone({}, live, next, next)
  {
  }
}
