/**
 * Fire-and-forget notices: a bounded queue that drops its oldest entry, drained one text at a
 * time by a loop that is scheduled, never called. Each method is one turn of the event loop.
 */
module Notifier {
  import opened Util

  const LIMIT: nat := 4000
  const CUT := "… (message cut at 4000 characters)"

  function LimitNotification(text: string): (r: string)
    ensures |r| <= LIMIT
    ensures |text| <= LIMIT ==> r == text
    ensures |text| > LIMIT ==> |r| == LIMIT && text[..LIMIT - |CUT|] + CUT == r
  {
    if |text| <= LIMIT then text else text[..LIMIT - |CUT|] + CUT
  }

  datatype Stats = Stats(sent: nat, failed: nat, dropped: nat)

  /** One attempt after another until one succeeds: `answers` says which would. */
  method Deliver(answers: nat -> bool, attempts: nat) returns (delivered: bool, tries: nat)
    ensures tries <= attempts
    ensures delivered <==> exists k :: 0 <= k < attempts && answers(k)
    ensures delivered ==> tries > 0 && answers(tries - 1) && forall k :: 0 <= k < tries - 1 ==> !answers(k)
    ensures !delivered ==> tries == attempts
  {
    for attempt := 0 to attempts
      invariant forall k :: 0 <= k < attempt ==> !answers(k)
    {
      if answers(attempt) { return true, attempt + 1; }
    }
    delivered, tries := false, attempts;
  }

  ghost predicate Rising(numbers: seq<nat>) {
    forall i, j :: 0 <= i < j < |numbers| ==> numbers[i] < numbers[j]
  }

  /** `texts` are those of `posted` at the places `numbers` names, in the same order. */
  ghost predicate Subsequence(texts: seq<string>, numbers: seq<nat>, posted: seq<string>) {
    && |numbers| == |texts| && Rising(numbers)
    && forall i :: 0 <= i < |texts| ==> numbers[i] < |posted| && posted[numbers[i]] == texts[i]
  }

  lemma OneMorePosted(texts: seq<string>, numbers: seq<nat>, posted: seq<string>, text: string)
    requires Subsequence(texts, numbers, posted)
    ensures Subsequence(texts + [text], numbers + [|posted|], posted + [text])
  {
  }

  lemma OneDropped(texts: seq<string>, numbers: seq<nat>, posted: seq<string>, i: nat)
    requires Subsequence(texts, numbers, posted) && i < |texts|
    ensures Subsequence(texts[..i] + texts[i + 1..], DropAt(numbers, i), posted)
  {
  }

  ghost function DropAt(numbers: seq<nat>, i: nat): seq<nat> {
    if i < |numbers| then numbers[..i] + numbers[i + 1..] else numbers
  }

  class Notifier {
    const sinks: nat
    const maxQueue: nat
    var queue: seq<string>
    var stats: Stats
    var scheduled: bool
    /** The drain loop, while it waits for the deliveries of the text in hand. */
    var draining: Option<string>
    /** Every text accepted, in posting order, and every text whose deliveries came back, in theirs. */
    ghost var posted: seq<string>
    ghost var handled: seq<string>
    /** Where each text of `InOrder` was posted. */
    ghost var numbers: seq<nat>

    ghost predicate Valid()
      reads this
    {
      && NoLostWakeUp()
      && (scheduled ==> draining.None? && queue != [])
      && |queue| <= Max(maxQueue, 1)
      && Subsequence(InOrder(), numbers, posted)
      && stats.sent + stats.failed == |handled|
      && (maxQueue > 0 ==> Conserved())
    }

    /** While anything waits, a drain is running or about to. */
    ghost predicate NoLostWakeUp()
      reads this
    {
      queue != [] ==> scheduled || draining.Some?
    }

    /** Every accepted text was sent, failed, dropped, or is still here. */
    ghost predicate Conserved()
      reads this
    {
      |posted| == stats.sent + stats.failed + stats.dropped + |queue| + if draining.Some? then 1 else 0
    }

    ghost function Hand(): (r: seq<string>)
      reads this
    {
      if draining.Some? then [draining.value] else []
    }

    /** What has been handled, what is in hand, and what waits, oldest first. */
    ghost function InOrder(): seq<string>
      reads this
    {
      handled + Hand() + queue
    }

    constructor (sinks: nat, maxQueue: nat)
      ensures Valid() && this.sinks == sinks && this.maxQueue == maxQueue
      ensures posted == [] && handled == [] && queue == [] && !scheduled && draining.None? && stats == Stats(0, 0, 0)
    {
      this.sinks, this.maxQueue := sinks, maxQueue;
      queue, stats, scheduled, draining := [], Stats(0, 0, 0), false, None;
      posted, handled, numbers := [], [], [];
    }

    /** Synchronous, and never calls a sink: at most the oldest waiting text makes room. */
    method Post(text: string)
      requires Valid()
      modifies this
      ensures Valid()
      ensures sinks == 0 ==> queue == old(queue) && posted == old(posted) && stats == old(stats) && scheduled == old(scheduled)
      ensures sinks > 0 ==>
                && posted == old(posted) + [LimitNotification(text)]
                && queue == (if |old(queue)| >= maxQueue && old(queue) != [] then old(queue)[1..] else old(queue))
                            + [LimitNotification(text)]
                && stats == old(stats).(dropped := old(stats).dropped + if |old(queue)| >= maxQueue then 1 else 0)
      ensures draining == old(draining) && handled == old(handled)
    {
      if sinks == 0 { return; }
      if |queue| >= maxQueue {
        if queue != [] { DropOldest(); }
        stats := stats.(dropped := stats.dropped + 1);
      }
      Push(LimitNotification(text));
      if !scheduled && draining.None? { scheduled := true; }
    }

    method DropOldest()
      requires queue != [] && Subsequence(InOrder(), numbers, posted)
      modifies this`queue, this`numbers
      ensures queue == old(queue)[1..] && Subsequence(InOrder(), numbers, posted)
    {
      hide Subsequence;
      ghost var at := |handled + Hand()|;
      OneDropped(InOrder(), numbers, posted, at);
      ghost var left := InOrder()[..at] + InOrder()[at + 1..];
      numbers := DropAt(numbers, at);
      queue := queue[1..];
      assert InOrder() == left;
    }

    method Push(text: string)
      requires Subsequence(InOrder(), numbers, posted)
      modifies this`queue, this`numbers, this`posted
      ensures queue == old(queue) + [text] && posted == old(posted) + [text] && Subsequence(InOrder(), numbers, posted)
    {
      hide Subsequence;
      OneMorePosted(InOrder(), numbers, posted, text);
      ghost var all := InOrder() + [text];
      numbers := numbers + [|posted|];
      queue, posted := queue + [text], posted + [text];
      assert InOrder() == all;
    }

    /** The scheduled microtask: it starts the drain, which takes the first text. */
    method StartDrain()
      requires Valid() && scheduled
      modifies this`scheduled, this`draining, this`queue
      ensures Valid() && !scheduled && draining == Some(old(queue)[0]) && queue == old(queue)[1..]
    {
      ghost var all := InOrder();
      scheduled := false;
      draining, queue := Some(queue[0]), queue[1..];
      assert InOrder() == all;
    }

    /** The deliveries of the text in hand have come back: count it, and take the next or stop. */
    method Delivered(anySent: bool)
      requires Valid() && draining.Some?
      modifies this`stats, this`draining, this`queue, this`handled
      ensures Valid() && handled == old(handled) + [old(draining).value]
      ensures stats == if anySent then old(stats).(sent := old(stats).sent + 1) else old(stats).(failed := old(stats).failed + 1)
      ensures draining == (if old(queue) == [] then None else Some(old(queue)[0]))
      ensures queue == if old(queue) == [] then [] else old(queue)[1..]
    {
      ghost var all := InOrder();
      stats := if anySent then stats.(sent := stats.sent + 1) else stats.(failed := stats.failed + 1);
      handled := handled + [draining.value];
      if queue == [] {
        draining := None;
      } else {
        draining, queue := Some(queue[0]), queue[1..];
      }
      assert InOrder() == all;
    }

    /** `flush` keeps waiting while this is false; when it returns nothing waits and nothing is in hand. */
    method FlushMayReturn() returns (done: bool)
      requires Valid()
      ensures done <==> queue == [] && draining.None?
      ensures done && maxQueue > 0 ==> |posted| == stats.sent + stats.failed + stats.dropped
    {
      done := !scheduled && draining.None?;
    }

    /**
     * The failure hook throws: the drain ends where it is. The wake-up is lost exactly when
     * something still waited, and the text in hand is then counted nowhere.
     */
    method HookThrew()
      requires Valid() && draining.Some?
      modifies this`draining
      ensures NoLostWakeUp() <==> old(queue) == []
      ensures draining.None? && queue == old(queue) && stats == old(stats)
      ensures maxQueue > 0 ==> !Conserved()
    {
      draining := None;
    }
  }

  /** With no room at all the counters disagree from the first post on: the text is counted dropped, and queued. */
  method NoRoomMiscounts() returns (n: Notifier)
    ensures fresh(n) && n.maxQueue == 0 && n.Valid() && |n.posted| == 1 && n.stats.dropped == 1 && |n.queue| == 1 && !n.Conserved()
  {
    n := new Notifier(1, 0);
    n.Post("");
  }
}
