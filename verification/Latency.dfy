/**
 * Phase durations across swaps: events grouped by swap in the order the database gave them,
 * one duration per pair of consecutive events, and nearest-rank figures over those.
 */
module Latency {
  import opened Util

  type State = nat
  type SwapId = nat

  /** A transition, or, with a detail and no change of state, a note. */
  datatype Event = Event(swapId: SwapId, from: Option<State>, to: State, at: int, detail: Option<nat>)

  datatype Label = Phase(from: State, to: State) | EndToEnd

  datatype Stats = Stats(phase: Label, n: nat, p50: int, p95: int, max: int)

  datatype Summary = Summary(swaps: nat, steps: seq<Stats>, endToEnd: Option<Stats>)

  predicate IsNote(e: Event) {
    e.detail.Some? && e.from == Some(e.to)
  }

  // ---- sorting and quantiles ----

  ghost predicate Sorted(s: seq<int>) {
    forall i, j :: 0 <= i < j < |s| ==> s[i] <= s[j]
  }

  function Insert(s: seq<int>, x: int): (r: seq<int>)
    requires Sorted(s)
    ensures Sorted(r) && multiset(r) == multiset(s) + multiset{x} && |r| == |s| + 1
  {
    if s == [] then [x]
    else
      assert s == s[..|s| - 1] + [s[|s| - 1]];
      if s[|s| - 1] <= x then s + [x]
      else
        var r := Insert(s[..|s| - 1], x);
        InsertBounded(s[..|s| - 1], r, x, s[|s| - 1]);
        r + [s[|s| - 1]]
  }

  lemma InsertBounded(s: seq<int>, r: seq<int>, x: int, bound: int)
    requires multiset(r) == multiset(s) + multiset{x} && x <= bound && forall y :: y in s ==> y <= bound
    ensures forall i :: 0 <= i < |r| ==> r[i] <= bound
  {
    forall i | 0 <= i < |r| ensures r[i] <= bound {
      assert r[i] in multiset(s) + multiset{x};
      assert r[i] in s || r[i] == x;
    }
  }

  function Sort(s: seq<int>): (r: seq<int>)
    ensures Sorted(r) && multiset(r) == multiset(s) && |r| == |s|
  {
    if s == [] then []
    else
      assert s == s[..|s| - 1] + [s[|s| - 1]];
      Insert(Sort(s[..|s| - 1]), s[|s| - 1])
  }

  /** `num / den` of `n`, rounded up. */
  function Ceil(num: nat, den: nat, n: nat): (r: nat)
    requires 0 < den
    ensures (r - 1) * den < num * n <= r * den
  {
    (num * n + den - 1) / den
  }

  /** The smallest element that at least `num / den` of all elements do not exceed. */
  function Quantile(sorted: seq<int>, num: nat, den: nat): int
    requires 0 < den
  {
    if sorted == [] then 0
    else sorted[Min(|sorted| - 1, Max(0, Ceil(num, den, |sorted|) - 1))]
  }

  // ---- what the figures mean ----

  function CountUpTo(s: seq<int>, v: int): nat {
    if s == [] then 0 else CountUpTo(s[..|s| - 1], v) + if s[|s| - 1] <= v then 1 else 0
  }

  function CountBelow(s: seq<int>, v: int): nat {
    CountUpTo(s, v - 1)
  }

  lemma {:induction false} CountOfInsert(s: seq<int>, x: int, v: int)
    requires Sorted(s)
    ensures CountUpTo(Insert(s, x), v) == CountUpTo(s, v) + if x <= v then 1 else 0
  {
    if s == [] {
      assert [x][..0] == [];
    } else if s[|s| - 1] <= x {
      assert (s + [x])[..|s|] == s;
    } else {
      CountOfInsert(s[..|s| - 1], x, v);
      var r := Insert(s[..|s| - 1], x);
      assert (r + [s[|s| - 1]])[..|r|] == r;
    }
  }

  lemma {:induction false} CountOfSort(s: seq<int>, v: int)
    ensures CountUpTo(Sort(s), v) == CountUpTo(s, v)
  {
    if s != [] {
      CountOfSort(s[..|s| - 1], v);
      CountOfInsert(Sort(s[..|s| - 1]), s[|s| - 1], v);
    }
  }

  /** In a sorted list, how many entries a value splits off, from where it stands. */
  lemma {:induction false} CountFrom(s: seq<int>, i: nat)
    requires Sorted(s) && i < |s|
    ensures CountUpTo(s, s[i]) >= i + 1 && CountBelow(s, s[i]) <= i
  {
    var n := |s| - 1;
    if i < n {
      CountFrom(s[..n], i);
    } else {
      CountAtMost(s[..n], s[i] - 1);
      AllCounted(s[..n], s[i]);
    }
  }

  lemma {:induction false} CountAtMost(s: seq<int>, v: int)
    ensures CountUpTo(s, v) <= |s|
  {
    if s != [] { CountAtMost(s[..|s| - 1], v); }
  }

  lemma {:induction false} AllCounted(s: seq<int>, v: int)
    requires forall i :: 0 <= i < |s| ==> s[i] <= v
    ensures CountUpTo(s, v) == |s|
  {
    if s != [] { AllCounted(s[..|s| - 1], v); }
  }

  /** The reported quantile is a duration that occurred, with nearest-rank position among all of them. */
  lemma NearestRank(durations: seq<int>, num: nat, den: nat)
    requires durations != [] && 0 < num <= den
    ensures var v := Quantile(Sort(durations), num, den);
            && v in durations
            && CountUpTo(durations, v) * den >= num * |durations|
            && CountBelow(durations, v) * den < num * |durations|
  {
    hide Quantile, Sort, CountUpTo, CountBelow;
    var sorted := Sort(durations);
    var k := RankOf(sorted, num, den);
    assert sorted[k] in multiset(sorted);
    CountFrom(sorted, k);
    BelowOf(sorted, sorted[k]);
    BelowOf(durations, sorted[k]);
    CountOfSort(durations, sorted[k]);
    CountOfSort(durations, sorted[k] - 1);
    Scaled(k + 1, CountUpTo(durations, sorted[k]), den);
    Scaled(CountBelow(durations, sorted[k]), k, den);
  }

  lemma BelowOf(s: seq<int>, v: int)
    ensures CountBelow(s, v) == CountUpTo(s, v - 1)
  {
  }

  /** Where in a sorted list the nearest rank stands. */
  lemma RankOf(sorted: seq<int>, num: nat, den: nat) returns (k: nat)
    requires sorted != [] && 0 < num <= den
    ensures k < |sorted| && Quantile(sorted, num, den) == sorted[k]
    ensures k * den < num * |sorted| <= (k + 1) * den
  {
    RankInRange(num, den, |sorted|);
    k := Ceil(num, den, |sorted|) - 1;
  }

  lemma Scaled(a: nat, b: nat, den: nat)
    requires a <= b
    ensures a * den <= b * den
  {
  }

  lemma Cancelled(a: nat, b: nat, den: nat)
    requires a * den < b * den
    ensures a < b
  {
    if b <= a { Scaled(b, a, den); }
  }

  lemma RankInRange(num: nat, den: nat, n: nat)
    requires 0 < num <= den && 0 < n
    ensures 1 <= Ceil(num, den, n) <= n
  {
    var r := Ceil(num, den, n);
    assert num * n > 0;
    assert r >= 1;
    Scaled(num, den, n);
    Cancelled(r - 1, n, den);
  }

  lemma RankMonotone(num: nat, more: nat, den: nat, n: nat)
    requires 0 < den && num <= more
    ensures Ceil(num, den, n) <= Ceil(more, den, n)
  {
    var a, b := Ceil(num, den, n), Ceil(more, den, n);
    Scaled(num, more, n);
    if a > 0 { Cancelled(a - 1, b, den); }
  }

  function StatsOf(phase: Label, durations: seq<int>): Stats {
    var sorted := Sort(durations);
    Stats(phase, |sorted|, Quantile(sorted, 50, 100), Quantile(sorted, 95, 100), if sorted == [] then 0 else sorted[|sorted| - 1])
  }

  /** The figures of one phase are in order, each occurred, and the largest is the largest. */
  lemma StatsOrdered(phase: Label, durations: seq<int>)
    requires durations != []
    ensures var s := StatsOf(phase, durations);
            && s.n == |durations| && s.p50 <= s.p95 <= s.max
            && s.p50 in durations && s.p95 in durations && s.max in durations
            && forall d :: d in durations ==> d <= s.max
  {
    var sorted := Sort(durations);
    var n := |sorted|;
    RankInRange(50, 100, n);
    RankInRange(95, 100, n);
    RankMonotone(50, 95, 100, n);
    NearestRank(durations, 50, 100);
    NearestRank(durations, 95, 100);
    assert sorted[n - 1] in multiset(sorted);
    forall d | d in durations ensures d <= sorted[n - 1] {
      assert d in multiset(durations);
      assert d in sorted;
    }
  }

  // ---- grouping ----

  function Kept(events: seq<Event>): seq<Event> {
    Filter(events, (e: Event) => !IsNote(e))
  }

  function Track(kept: seq<Event>, id: SwapId): seq<Event> {
    if kept == [] then []
    else Track(kept[..|kept| - 1], id) + if kept[|kept| - 1].swapId == id then [kept[|kept| - 1]] else []
  }

  /** The swaps, by their first event. */
  function Swaps(kept: seq<Event>): (r: seq<SwapId>)
    ensures Distinct(r) && forall id :: id in r <==> exists e :: e in kept && e.swapId == id
  {
    if kept == [] then []
    else
      var r := Swaps(kept[..|kept| - 1]);
      assert kept == kept[..|kept| - 1] + [kept[|kept| - 1]];
      if kept[|kept| - 1].swapId in r then r else r + [kept[|kept| - 1].swapId]
  }

  ghost predicate Grouped(kept: seq<Event>, order: seq<SwapId>, bySwap: map<SwapId, seq<Event>>) {
    && order == Swaps(kept)
    && (forall id :: id in bySwap <==> id in order)
    && forall id :: id in order ==> bySwap[id] == Track(kept, id)
  }

  lemma {:induction false} NoTrack(kept: seq<Event>, id: SwapId)
    requires id !in Swaps(kept)
    ensures Track(kept, id) == []
  {
    if kept != [] {
      var n := |kept| - 1;
      assert kept[n] in kept;
      NoTrack(kept[..n], id);
    }
  }

  method GroupBySwap(events: seq<Event>) returns (order: seq<SwapId>, bySwap: map<SwapId, seq<Event>>)
    ensures Grouped(Kept(events), order, bySwap)
  {
    hide Grouped, Kept, Swaps, Track, IsNote;
    order, bySwap := [], map[];
    NothingGrouped();
    assert events[..0] == [];
    for i := 0 to |events|
      invariant Grouped(Kept(events[..i]), order, bySwap)
    {
      KeptStep(events, i);
      var e := events[i];
      if IsNote(e) { continue; }
      ghost var kept := Kept(events[..i]);
      GroupStep(kept, order, bySwap, e);
      if e.swapId in bySwap {
        bySwap := bySwap[e.swapId := bySwap[e.swapId] + [e]];
      } else {
        assert [] + [e] == [e];
        order, bySwap := order + [e.swapId], bySwap[e.swapId := [e]];
      }
    }
    assert events[..|events|] == events;
  }

  lemma NothingGrouped()
    ensures Kept([]) == [] && Grouped([], [], map[])
  {
  }

  lemma KeptStep(events: seq<Event>, i: nat)
    requires i < |events|
    ensures Kept(events[..i + 1]) == if IsNote(events[i]) then Kept(events[..i]) else Kept(events[..i]) + [events[i]]
  {
    assert events[..i + 1][..i] == events[..i];
  }

  lemma GroupStep(kept: seq<Event>, order: seq<SwapId>, bySwap: map<SwapId, seq<Event>>, e: Event)
    requires Grouped(kept, order, bySwap)
    ensures var next := kept + [e];
            Grouped(next, if e.swapId in bySwap then order else order + [e.swapId],
                    bySwap[e.swapId := (if e.swapId in bySwap then bySwap[e.swapId] else []) + [e]])
  {
    var next := kept + [e];
    assert next[..|next| - 1] == kept;
    if e.swapId !in bySwap { NoTrack(kept, e.swapId); }
  }

  // ---- phases ----

  /** One phase of one swap, and how long it took. */
  type Delta = (Label, int)

  function Between(a: Event, b: Event): Delta {
    (Phase(a.to, b.to), b.at - a.at)
  }

  function Deltas(track: seq<Event>): seq<Delta> {
    if |track| < 2 then []
    else Deltas(track[..|track| - 1]) + [Between(track[|track| - 2], track[|track| - 1])]
  }

  function AllDeltas(order: seq<SwapId>, kept: seq<Event>): seq<Delta> {
    if order == [] then []
    else AllDeltas(order[..|order| - 1], kept) + Deltas(Track(kept, order[|order| - 1]))
  }

  /** First transition to last, of each swap that completed a step. */
  function EndToEnds(order: seq<SwapId>, kept: seq<Event>): seq<int> {
    if order == [] then []
    else
      var track := Track(kept, order[|order| - 1]);
      EndToEnds(order[..|order| - 1], kept) + if |track| > 1 then [track[|track| - 1].at - track[0].at] else []
  }

  function DurationsOf(deltas: seq<Delta>, phase: Label): seq<int> {
    if deltas == [] then []
    else
      var d := deltas[|deltas| - 1];
      DurationsOf(deltas[..|deltas| - 1], phase) + if d.0 == phase then [d.1] else []
  }

  function Phases(deltas: seq<Delta>): (r: seq<Label>)
    ensures Distinct(r) && forall l :: l in r <==> exists d :: d in deltas && d.0 == l
  {
    if deltas == [] then []
    else
      var r := Phases(deltas[..|deltas| - 1]);
      assert deltas == deltas[..|deltas| - 1] + [deltas[|deltas| - 1]];
      if deltas[|deltas| - 1].0 in r then r else r + [deltas[|deltas| - 1].0]
  }

  ghost predicate Phased(deltas: seq<Delta>, labels: seq<Label>, steps: map<Label, seq<int>>) {
    && labels == Phases(deltas)
    && (forall l :: l in steps <==> l in labels)
    && forall l :: l in labels ==> steps[l] == DurationsOf(deltas, l)
  }

  lemma {:induction false} NoDurations(deltas: seq<Delta>, phase: Label)
    requires phase !in Phases(deltas)
    ensures DurationsOf(deltas, phase) == []
  {
    if deltas != [] {
      var n := |deltas| - 1;
      assert deltas[n] in deltas;
      NoDurations(deltas[..n], phase);
    }
  }

  lemma OneMoreDuration(deltas: seq<Delta>, d: Delta, phase: Label)
    ensures DurationsOf(deltas + [d], phase) == DurationsOf(deltas, phase) + if d.0 == phase then [d.1] else []
  {
    assert (deltas + [d])[..|deltas|] == deltas;
  }

  lemma OneMorePhase(deltas: seq<Delta>, d: Delta)
    ensures Phases(deltas + [d]) == Phases(deltas) + if d.0 in Phases(deltas) then [] else [d.0]
  {
    assert (deltas + [d])[..|deltas|] == deltas;
    assert Phases(deltas) + [] == Phases(deltas);
  }

  lemma PhaseStep(deltas: seq<Delta>, labels: seq<Label>, steps: map<Label, seq<int>>, d: Delta)
    requires Phased(deltas, labels, steps)
    ensures Phased(deltas + [d], if d.0 in steps then labels else labels + [d.0],
                   steps[d.0 := (if d.0 in steps then steps[d.0] else []) + [d.1]])
  {
    hide Phases, DurationsOf;
    var next := deltas + [d];
    forall l ensures DurationsOf(next, l) == DurationsOf(deltas, l) + if d.0 == l then [d.1] else [] { OneMoreDuration(deltas, d, l); }
    OneMorePhase(deltas, d);
    if d.0 !in steps { NoDurations(deltas, d.0); }
  }

  /** The durations of one swap's phases, added to those of the swaps before it. */
  method AddTrack(track: seq<Event>, labels0: seq<Label>, steps0: map<Label, seq<int>>, ghost deltas: seq<Delta>)
    returns (labels: seq<Label>, steps: map<Label, seq<int>>)
    requires Phased(deltas, labels0, steps0)
    ensures Phased(deltas + Deltas(track), labels, steps)
  {
    hide Phased;
    labels, steps := labels0, steps0;
    assert deltas + [] == deltas;
    if |track| < 2 { return; }
    assert Deltas(track[..1]) == [];
    for i := 1 to |track|
      invariant Phased(deltas + Deltas(track[..i]), labels, steps)
    {
      var d := Between(track[i - 1], track[i]);
      assert track[..i + 1][..i] == track[..i];
      assert deltas + Deltas(track[..i + 1]) == deltas + Deltas(track[..i]) + [d];
      PhaseStep(deltas + Deltas(track[..i]), labels, steps, d);
      if d.0 in steps {
        steps := steps[d.0 := steps[d.0] + [d.1]];
      } else {
        assert [] + [d.1] == [d.1];
        labels, steps := labels + [d.0], steps[d.0 := [d.1]];
      }
    }
    assert track[..|track|] == track;
  }

  method CollectPhases(order: seq<SwapId>, bySwap: map<SwapId, seq<Event>>, ghost kept: seq<Event>)
    returns (labels: seq<Label>, steps: map<Label, seq<int>>, totals: seq<int>)
    requires forall id :: id in order ==> id in bySwap && bySwap[id] == Track(kept, id)
    ensures Phased(AllDeltas(order, kept), labels, steps) && totals == EndToEnds(order, kept)
  {
    hide Phased, Track, Deltas;
    labels, steps, totals := [], map[], [];
    NothingPhased();
    for i := 0 to |order|
      invariant Phased(AllDeltas(order[..i], kept), labels, steps)
      invariant totals == EndToEnds(order[..i], kept)
    {
      assert order[..i + 1][..i] == order[..i];
      assert order[i] in order;
      var track := bySwap[order[i]];
      labels, steps := AddTrack(track, labels, steps, AllDeltas(order[..i], kept));
      if |track| > 1 { totals := totals + [track[|track| - 1].at - track[0].at]; }
    }
    assert order[..|order|] == order;
  }

  lemma NothingPhased()
    ensures Phased([], [], map[])
  {
  }

  method StatsOfEach(labels: seq<Label>, steps: map<Label, seq<int>>) returns (stats: seq<Stats>)
    requires forall l :: l in labels ==> l in steps
    ensures |stats| == |labels| && forall i :: 0 <= i < |labels| ==> stats[i] == StatsOf(labels[i], steps[labels[i]])
  {
    hide StatsOf;
    stats := [];
    for i := 0 to |labels|
      invariant |stats| == i && forall j :: 0 <= j < i ==> stats[j] == StatsOf(labels[j], steps[labels[j]])
    {
      stats := stats + [StatsOf(labels[i], steps[labels[i]])];
    }
  }

  method SummariseLatency(events: seq<Event>) returns (r: Summary)
    ensures var kept := Kept(events);
            var deltas, ends := AllDeltas(Swaps(kept), kept), EndToEnds(Swaps(kept), kept);
            && r.swaps == |Swaps(kept)|
            && |r.steps| == |Phases(deltas)|
            && (forall i :: 0 <= i < |r.steps| ==> r.steps[i] == StatsOf(Phases(deltas)[i], DurationsOf(deltas, Phases(deltas)[i])))
            && r.endToEnd == if ends == [] then None else Some(StatsOf(EndToEnd, ends))
  {
    hide StatsOf, Swaps, Track, AllDeltas, EndToEnds, Phases, DurationsOf, Kept;
    var order, bySwap := GroupBySwap(events);
    var labels, steps, totals := CollectPhases(order, bySwap, Kept(events));
    var stats := StatsOfEach(labels, steps);
    r := Summary(|order|, stats, if totals == [] then None else Some(StatsOf(EndToEnd, totals)));
  }

  // ---- nothing is lost or counted twice ----

  function Sum(s: seq<int>): int {
    if s == [] then 0 else Sum(s[..|s| - 1]) + s[|s| - 1]
  }

  function SumOfDeltas(deltas: seq<Delta>): int {
    if deltas == [] then 0 else SumOfDeltas(deltas[..|deltas| - 1]) + deltas[|deltas| - 1].1
  }

  /** Over several phases: how many durations, and what they add up to. */
  function PhaseCount(labels: seq<Label>, deltas: seq<Delta>): nat {
    if labels == [] then 0 else PhaseCount(labels[..|labels| - 1], deltas) + |DurationsOf(deltas, labels[|labels| - 1])|
  }

  function PhaseSum(labels: seq<Label>, deltas: seq<Delta>): int {
    if labels == [] then 0 else PhaseSum(labels[..|labels| - 1], deltas) + Sum(DurationsOf(deltas, labels[|labels| - 1]))
  }

  /** One swap's phases telescope to its end-to-end time. */
  lemma {:induction false} Telescopes(track: seq<Event>)
    requires track != []
    ensures |Deltas(track)| == |track| - 1
    ensures SumOfDeltas(Deltas(track)) == track[|track| - 1].at - track[0].at
  {
    if |track| > 1 {
      var earlier := Deltas(track[..|track| - 1]);
      Telescopes(track[..|track| - 1]);
      assert Deltas(track)[..|earlier|] == earlier;
    }
  }

  lemma {:induction false} DeltasOfBoth(some: seq<Delta>, more: seq<Delta>)
    ensures SumOfDeltas(some + more) == SumOfDeltas(some) + SumOfDeltas(more)
  {
    if more == [] {
      assert some + more == some;
    } else {
      assert (some + more)[..|some + more| - 1] == some + more[..|more| - 1];
      DeltasOfBoth(some, more[..|more| - 1]);
    }
  }

  lemma {:induction false} PhasesOfOneMore(labels: seq<Label>, deltas: seq<Delta>, d: Delta)
    requires Distinct(labels)
    ensures PhaseCount(labels, deltas + [d]) == PhaseCount(labels, deltas) + if d.0 in labels then 1 else 0
    ensures PhaseSum(labels, deltas + [d]) == PhaseSum(labels, deltas) + if d.0 in labels then d.1 else 0
  {
    if labels != [] {
      var n := |labels| - 1;
      var next, last := deltas + [d], labels[n];
      assert labels == labels[..n] + [last];
      PhasesOfOneMore(labels[..n], deltas, d);
      assert next[..|next| - 1] == deltas;
      assert d.0 == last ==> d.0 !in labels[..n];
      var before := DurationsOf(deltas, last);
      assert (before + [d.1])[..|before|] == before;
      assert before + [] == before;
    }
  }

  /** Splitting durations by phase loses none and counts none twice. */
  lemma {:induction false} ByPhase(deltas: seq<Delta>)
    ensures PhaseCount(Phases(deltas), deltas) == |deltas|
    ensures PhaseSum(Phases(deltas), deltas) == SumOfDeltas(deltas)
  {
    if deltas != [] {
      var n := |deltas| - 1;
      var earlier, d := deltas[..n], deltas[n];
      assert deltas == earlier + [d];
      ByPhase(earlier);
      PhasesOfOneMore(Phases(earlier), earlier, d);
      if d.0 !in Phases(earlier) {
        var all := Phases(earlier) + [d.0];
        assert all[..|all| - 1] == Phases(earlier) && Phases(deltas) == all;
        NoDurations(earlier, d.0);
        assert DurationsOf(deltas, d.0) == [d.1] && [d.1][..0] == [];
        assert Sum([d.1]) == Sum([]) + d.1;
      }
    }
  }

  function TrackTotal(order: seq<SwapId>, kept: seq<Event>): nat {
    if order == [] then 0 else TrackTotal(order[..|order| - 1], kept) + |Track(kept, order[|order| - 1])|
  }

  lemma {:induction false} TracksOfOneMore(order: seq<SwapId>, kept: seq<Event>, e: Event)
    requires Distinct(order)
    ensures TrackTotal(order, kept + [e]) == TrackTotal(order, kept) + if e.swapId in order then 1 else 0
  {
    if order != [] {
      var n := |order| - 1;
      assert order == order[..n] + [order[n]];
      TracksOfOneMore(order[..n], kept, e);
      assert (kept + [e])[..|kept|] == kept;
      assert e.swapId == order[n] ==> e.swapId !in order[..n];
    }
  }

  /** Every kept event is in exactly one track. */
  lemma {:induction false} TracksCoverEvents(kept: seq<Event>)
    ensures TrackTotal(Swaps(kept), kept) == |kept|
  {
    if kept != [] {
      var n := |kept| - 1;
      var earlier, e := kept[..n], kept[n];
      assert kept == earlier + [e];
      TracksCoverEvents(earlier);
      TracksOfOneMore(Swaps(earlier), earlier, e);
      if e.swapId !in Swaps(earlier) {
        var all := Swaps(earlier) + [e.swapId];
        assert all[..|all| - 1] == Swaps(earlier);
        NoTrack(earlier, e.swapId);
      }
    }
  }

  lemma {:induction false} SomeTrack(kept: seq<Event>, id: SwapId)
    requires id in Swaps(kept)
    ensures Track(kept, id) != []
  {
    var n := |kept| - 1;
    if kept[n].swapId != id {
      SomeTrack(kept[..n], id);
    }
  }

  lemma SumOfOneMore(s: seq<int>, x: int)
    ensures Sum(s + [x]) == Sum(s) + x
  {
    assert (s + [x])[..|s|] == s;
  }

  lemma NoSums()
    ensures Sum([]) == 0 && SumOfDeltas([]) == 0
  {
  }

  lemma {:induction false} OverSwaps(order: seq<SwapId>, kept: seq<Event>)
    requires forall id :: id in order ==> Track(kept, id) != []
    ensures |AllDeltas(order, kept)| + |order| == TrackTotal(order, kept)
    ensures SumOfDeltas(AllDeltas(order, kept)) == Sum(EndToEnds(order, kept))
  {
    hide Track, Deltas, Sum, SumOfDeltas;
    NoSums();
    if order != [] {
      var n := |order| - 1;
      var track := Track(kept, order[n]);
      assert order[n] in order && forall id :: id in order[..n] ==> id in order;
      OverSwaps(order[..n], kept);
      Telescopes(track);
      DeltasOfBoth(AllDeltas(order[..n], kept), Deltas(track));
      var ends := EndToEnds(order[..n], kept);
      if |track| > 1 {
        SumOfOneMore(ends, track[|track| - 1].at - track[0].at);
      } else {
        assert ends + [] == ends;
      }
    }
  }

  /**
   * For any events: the durations of all phases add up to all end-to-end times, and there is
   * one for each event kept beyond the first of its swap.
   */
  lemma DurationsConserved(events: seq<Event>)
    ensures var kept := Kept(events);
            var deltas := AllDeltas(Swaps(kept), kept);
            && PhaseSum(Phases(deltas), deltas) == Sum(EndToEnds(Swaps(kept), kept))
            && PhaseCount(Phases(deltas), deltas) == |kept| - |Swaps(kept)|
  {
    var kept := Kept(events);
    var deltas := AllDeltas(Swaps(kept), kept);
    ByPhase(deltas);
    TracksCoverEvents(kept);
    forall id | id in Swaps(kept) ensures Track(kept, id) != [] { SomeTrack(kept, id); }
    OverSwaps(Swaps(kept), kept);
  }
}
