/**
 * The in-memory ledger of coins some operation has claimed: pins are counted, and each
 * reservation hands out its own idempotent release.
 */
module Reservations {
  import opened Util

  datatype Coin = Coin(txid: nat, vout: nat)

  /** One handed-out release. */
  type Ticket = nat

  /** Every coin pinned by a reservation made before `n` and not released yet, with multiplicity. */
  ghost function Pinned(live: map<Ticket, seq<Coin>>, n: nat): multiset<Coin> {
    if n == 0 then multiset{}
    else Pinned(live, n - 1) + if n - 1 in live then multiset(live[n - 1]) else multiset{}
  }

  /** The counts say how often each coin is in `bag`, and mention no other coin. */
  ghost predicate Counts(counts: map<Coin, nat>, bag: multiset<Coin>) {
    forall c :: (c in counts <==> c in bag) && (c in counts ==> counts[c] == bag[c])
  }

  lemma {:induction false} PinnedSame(live: map<Ticket, seq<Coin>>, other: map<Ticket, seq<Coin>>, n: nat)
    requires forall t :: t < n ==> (t in live <==> t in other) && (t in live ==> live[t] == other[t])
    ensures Pinned(live, n) == Pinned(other, n)
  {
    if n > 0 { PinnedSame(live, other, n - 1); }
  }

  lemma {:induction false} PinnedWithout(live: map<Ticket, seq<Coin>>, t: Ticket, n: nat)
    requires t in live && t < n
    ensures multiset(live[t]) <= Pinned(live, n)
    ensures Pinned(live - {t}, n) == Pinned(live, n) - multiset(live[t])
  {
    if t == n - 1 {
      PinnedSame(live - {t}, live, n - 1);
    } else {
      PinnedWithout(live, t, n - 1);
    }
  }

  lemma PinnedWith(live: map<Ticket, seq<Coin>>, t: Ticket, coins: seq<Coin>)
    ensures Pinned(live[t := coins], t + 1) == Pinned(live, t) + multiset(coins)
  {
    PinnedSame(live, live[t := coins], t);
  }

  /** A coin is pinned exactly when some unreleased reservation holds it. */
  lemma {:induction false} PinnedByWhom(live: map<Ticket, seq<Coin>>, n: nat, c: Coin)
    ensures c in Pinned(live, n) <==> exists t :: t in live && t < n && c in live[t]
  {
    if n > 0 { PinnedByWhom(live, n - 1, c); }
  }

  lemma CountedUp(counts: map<Coin, nat>, bag: multiset<Coin>, c: Coin)
    requires Counts(counts, bag)
    ensures Counts(counts[c := (if c in counts then counts[c] else 0) + 1], bag + multiset{c})
  {
  }

  function CountDown(counts: map<Coin, nat>, c: Coin): map<Coin, nat> {
    var held: int := if c in counts then counts[c] else 1;
    if held - 1 <= 0 then counts - {c} else counts[c := held - 1]
  }

  lemma CountedDown(counts: map<Coin, nat>, bag: multiset<Coin>, c: Coin)
    requires Counts(counts, bag) && c in bag
    ensures Counts(CountDown(counts, c), bag - multiset{c})
  {
  }

  lemma OneMore(coins: seq<Coin>, i: nat, bag: multiset<Coin>)
    requires i < |coins|
    ensures bag + multiset(coins[..i + 1]) == bag + multiset(coins[..i]) + multiset{coins[i]}
    ensures multiset(coins) <= bag ==>
              coins[i] in bag - multiset(coins[..i])
              && bag - multiset(coins[..i + 1]) == bag - multiset(coins[..i]) - multiset{coins[i]}
  {
    assert coins[..i + 1] == coins[..i] + [coins[i]];
    assert coins == coins[..i + 1] + coins[i + 1..];
  }

  class ReservationLedger {
    var counts: map<Coin, nat>
    /** The releases handed out and not called yet, with the coins each will free. */
    var live: map<Ticket, seq<Coin>>
    var next: Ticket

    ghost predicate Valid()
      reads this
    {
      (forall t :: t in live ==> t < next) && Counts(counts, Pinned(live, next))
    }

    constructor ()
      ensures Valid() && live == map[]
    {
      counts, live, next := map[], map[], 0;
    }

    /** Every currently pinned coin: those of the reservations not released yet. */
    function Reserved(): (r: set<Coin>)
      requires Valid()
      reads this
      ensures forall c :: c in r <==> exists t :: t in live && c in live[t]
    {
      assert forall c :: c in counts <==> exists t :: t in live && c in live[t] by {
        forall c ensures c in counts <==> exists t :: t in live && c in live[t] {
          PinnedByWhom(live, next, c);
        }
      }
      counts.Keys
    }

    method Reserve(coins: seq<Coin>) returns (t: Ticket)
      requires Valid()
      modifies this
      ensures Valid() && t !in old(live) && live == old(live)[t := coins]
      ensures old(next) <= t < next
    {
      hide Counts, Pinned;
      ghost var bag := Pinned(live, next);
      assert bag + multiset(coins[..0]) == bag;
      for i := 0 to |coins|
        invariant live == old(live) && next == old(next)
        invariant Counts(counts, bag + multiset(coins[..i]))
      {
        OneMore(coins, i, bag);
        var c := coins[i];
        CountedUp(counts, bag + multiset(coins[..i]), c);
        counts := counts[c := (if c in counts then counts[c] else 0) + 1];
      }
      assert coins[..|coins|] == coins;
      t := next;
      PinnedWith(live, next, coins);
      live, next := live[t := coins], next + 1;
    }

    /** Called once it frees its own pins, called again it does nothing. */
    method Release(t: Ticket)
      requires Valid()
      modifies this
      ensures Valid() && live == old(live) - {t} && next == old(next)
    {
      if t !in live { return; }
      PinnedWithout(live, t, next);
      Unpin(live[t], Pinned(live, next));
      live := live - {t};
    }

    method Unpin(coins: seq<Coin>, ghost bag: multiset<Coin>)
      requires Counts(counts, bag) && multiset(coins) <= bag
      modifies this`counts
      ensures Counts(counts, bag - multiset(coins))
    {
      hide Counts;
      assert bag - multiset(coins[..0]) == bag;
      for i := 0 to |coins|
        invariant Counts(counts, bag - multiset(coins[..i]))
      {
        OneMore(coins, i, bag);
        CountedDown(counts, bag - multiset(coins[..i]), coins[i]);
        counts := CountDown(counts, coins[i]);
      }
      assert coins[..|coins|] == coins;
    }
  }
}
