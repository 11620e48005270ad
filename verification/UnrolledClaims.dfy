/**
 * Claims on chain for the outputs a client took there: every one of them is followed to its end
 * across ticks, errors and crashes, and the swap is settled only after the last.
 */
module UnrolledClaims {
  import opened Util

  datatype Outpoint = Outpoint(txid: nat, vout: nat)

  /** How far one output's claim has come; `waiting` is an answer, never kept. */
  datatype Step = Pending(record: nat) | Confirmed(record: nat) | Spent | Closed(reason: nat)

  datatype Answer = Waiting | Reached(step: Step) | Threw

  /** What driving one output does: the records it saves on the way, and how it answers. */
  datatype Drive = Drive(saves: seq<nat>, answer: Answer)

  type Steps = map<Outpoint, Step>

  datatype SwapState = Claiming | Claimed | Stuck

  predicate IsLost(s: Step) {
    s.Spent? || s.Closed?
  }

  predicate IsOver(s: Step) {
    IsLost(s) || s.Confirmed?
  }

  /** One set of kept steps follows another: nothing is forgotten and a confirmation stays. */
  ghost predicate Follows(a: Steps, b: Steps) {
    a.Keys <= b.Keys && forall k :: k in a && a[k].Confirmed? ==> b[k] == a[k]
  }

  /** Whatever was persisted at one moment is followed by whatever is persisted later. */
  ghost predicate Grows(log: seq<Steps>) {
    forall i, j :: 0 <= i <= j < |log| ==> Follows(log[i], log[j])
  }

  lemma GrowsMore(log: seq<Steps>, next: Steps)
    requires Grows(log) && (log != [] ==> Follows(log[|log| - 1], next))
    ensures Grows(log + [next])
  {
    var all := log + [next];
    forall i, j | 0 <= i <= j < |all| ensures Follows(all[i], all[j]) {
      if j == |log| && i < |log| {
        assert Follows(log[i], log[|log| - 1]);
      }
    }
  }

  datatype Claims = Claims(settled: bool, lost: seq<Outpoint>, confirmed: seq<Outpoint>, error: bool)

  /** What the kept steps amount to. */
  ghost predicate Judged(keys: seq<Outpoint>, steps: Steps, c: Claims) {
    && (c.settled <==> forall k :: k in keys ==> k in steps && IsOver(steps[k]))
    && (forall k :: k in c.lost <==> k in keys && k in steps && IsLost(steps[k]))
    && (forall k :: k in c.confirmed <==> k in keys && k in steps && steps[k].Confirmed?)
  }

  /** The record an output's claim is driven from. */
  function RecordOf(steps: Steps, key: Outpoint): Option<nat> {
    if key in steps && steps[key].Pending? then Some(steps[key].record) else None
  }

  predicate IsConfirmed(steps: Steps, key: Outpoint) {
    key in steps && steps[key].Confirmed?
  }

  /** The drives of one tick: every output listed whose claim has not confirmed, once, in order. */
  function Drives(listing: seq<Outpoint>, steps: Steps): seq<(Outpoint, Option<nat>)> {
    if listing == [] then []
    else
      var key := listing[|listing| - 1];
      Drives(listing[..|listing| - 1], steps) + if IsConfirmed(steps, key) then [] else [(key, RecordOf(steps, key))]
  }

  lemma FollowsKeep(persisted: Steps, steps: Steps, key: Outpoint, step: Step)
    requires Follows(persisted, steps) && !IsConfirmed(steps, key)
    ensures Follows(persisted, steps[key := step])
  {
  }

  class SwapRow {
    var state: SwapState
    var persisted: Steps
    /** Every value persisted; a crash may follow any of them. */
    ghost var log: seq<Steps>
    /** Every output driven, in order, with the record it was driven from. */
    ghost var driven: seq<(Outpoint, Option<nat>)>

    ghost predicate Valid()
      reads this
    {
      log != [] && log[|log| - 1] == persisted && Grows(log)
    }

    constructor ()
      ensures Valid() && persisted == map[] && state == Claiming && driven == [] && log == [map[]]
    {
      state, persisted := Claiming, map[];
      log, driven := [map[]], [];
    }

    /**
     * Keep one output's step: in memory first, then in the row. A patch that throws leaves the
     * row as it was, and the memory ahead of it.
     */
    method Keep(steps: Steps, key: Outpoint, step: Step, writes: bool) returns (kept: Steps, ok: bool)
      requires Valid() && Follows(persisted, steps) && !IsConfirmed(steps, key)
      modifies this`persisted, this`log
      ensures Valid() && kept == steps[key := step] && Follows(persisted, kept)
      ensures ok <==> writes || (key in steps && steps[key] == step)
      ensures old(log) <= log && (!ok ==> log == old(log))
      ensures persisted == if ok && !(key in steps && steps[key] == step) then kept else old(persisted)
    {
      hide Follows, Grows;
      kept, ok := steps, true;
      if key in steps && steps[key] == step {
        assert steps[key := step] == steps;
        return;
      }
      FollowsKeep(persisted, steps, key, step);
      kept, ok := steps[key := step], writes;
      if writes {
        GrowsMore(log, kept);
        persisted, log := kept, log + [kept];
      }
      SelfFollows(kept);
    }

    /** Drive one output's claim, keeping each record it saves before it goes on; any throw is caught. */
    method DriveOne(steps: Steps, key: Outpoint, drive: Drive, writes: nat -> bool, from: nat)
      returns (kept: Steps, threw: bool, next: nat)
      requires Valid() && Follows(persisted, steps) && !IsConfirmed(steps, key)
      modifies this`persisted, this`log, this`driven
      ensures Valid() && Follows(persisted, kept) && old(log) <= log && next >= from
      ensures kept.Keys <= steps.Keys + {key} && forall k :: k in steps && k != key ==> k in kept && kept[k] == steps[k]
      ensures key in steps ==> key in kept
      ensures driven == old(driven) + [(key, RecordOf(steps, key))]
      ensures !threw && drive.answer.Reached? ==> key in kept && kept[key] == drive.answer.step
      ensures drive.answer.Threw? ==> threw
    {
      hide Follows, Grows;
      driven := driven + [(key, RecordOf(steps, key))];
      kept, threw, next := steps, false, from;
      for i := 0 to |drive.saves|
        invariant Valid() && Follows(persisted, kept) && old(log) <= log && next >= from && !threw
        invariant kept.Keys <= steps.Keys + {key} && (forall k :: k in steps && k != key ==> k in kept && kept[k] == steps[k])
        invariant !IsConfirmed(kept, key) && (key in steps ==> key in kept)
        invariant driven == old(driven) + [(key, RecordOf(steps, key))]
      {
        var ok;
        kept, ok := Keep(kept, key, Pending(drive.saves[i]), writes(next));
        next := next + 1;
        if !ok { return kept, true, next; }
      }
      match drive.answer
      case Waiting =>
      case Threw => threw := true;
      case Reached(step) =>
        var ok;
        kept, ok := Keep(kept, key, step, writes(next));
        threw, next := !ok, next + 1;
    }

    /**
     * One tick over the outputs in `listing`: those kept from earlier ticks together with those
     * found by this one. Each short of a confirmation is driven, and a failure of one does not
     * keep the next from its turn.
     */
    method Advance(found: seq<Outpoint>, listing: seq<Outpoint>, drives: Outpoint -> Drive, writes: nat -> bool)
      returns (r: Option<Claims>, steps: Steps)
      requires Valid() && Distinct(listing) && forall k :: k in listing <==> k in persisted || k in found
      modifies this`persisted, this`log, this`driven
      ensures Valid() && old(log) <= log && Follows(old(persisted), persisted) && Follows(persisted, steps)
      ensures r.None? <==> listing == []
      ensures driven == old(driven) + Drives(listing, old(persisted))
      ensures r.Some? ==> Judged(listing, steps, r.value)
      ensures r.Some? && !r.value.error ==> Followed(listing, old(persisted), drives, steps)
      ensures state == old(state)
    {
      hide Follows, Grows, Judged, Followed, Drives;
      steps := persisted;
      SelfFollows(persisted);
      if listing == [] {
        NoDrives(persisted);
        return None, steps;
      }
      ghost var steps0, log0 := persisted, log;
      var error, next := false, 0;
      StartOf(listing, steps0, drives);
      for i := 0 to |listing|
        invariant Valid() && log0 <= log && Follows(persisted, steps)
        invariant Untouched(listing, i, steps0, steps)
        invariant driven == old(driven) + Drives(listing[..i], steps0)
        invariant !error ==> Followed(listing[..i], steps0, drives, steps)
      {
        UntouchedHere(listing, i, steps0, steps);
        DrivesStep(listing, i, steps0);
        ghost var before := steps;
        if IsConfirmed(steps, listing[i]) {
          if !error { FollowedOn(listing, i, steps0, drives, before, steps); }
        } else {
          var threw;
          steps, threw, next := DriveOne(steps, listing[i], drives(listing[i]), writes, next);
          error := error || threw;
          if !error { FollowedOn(listing, i, steps0, drives, before, steps); }
        }
        UntouchedOn(listing, i, steps0, before, steps);
      }
      assert listing[..|listing|] == listing;
      GrowsFrom(log0, log);
      var c := Judge(listing, steps, error);
      r := Some(c);
    }

    /** The move the store makes for whoever comes first; a row already moved is left alone. */
    method MoveFromClaiming(to: SwapState) returns (moved: bool)
      modifies this`state
      ensures moved <==> old(state) == Claiming
      ensures state == if moved then to else old(state)
    {
      moved := state == Claiming;
      if moved { state := to; }
    }

    /**
     * What the judged claims make of the swap, provided it is still `Claiming`: nothing while one
     * is undecided, `Stuck` when any was lost, `Claimed` otherwise. Answers whether it is this call
     * that brought it to `Claimed`.
     */
    method Settle(c: Claims, ghost listing: seq<Outpoint>, ghost steps: Steps) returns (outcome: Option<bool>)
      requires Valid() && Judged(listing, steps, c)
      modifies this`state
      ensures Valid()
      ensures old(state) != Claiming ==> state == old(state)
      ensures old(state) == Claiming ==>
                && (state == Claimed <==> forall k :: k in listing ==> IsConfirmed(steps, k))
                && (state == Stuck <==> (forall k :: k in listing ==> k in steps && IsOver(steps[k]))
                                        && exists k :: k in listing && k in steps && IsLost(steps[k]))
      ensures outcome.None? <==> !c.settled && c.error
      ensures outcome == Some(true) <==> old(state) == Claiming && forall k :: k in listing ==> IsConfirmed(steps, k)
    {
      if !c.settled { return if c.error then None else Some(false); }
      if c.lost == [] {
        assert forall k :: k !in c.lost;
        var moved := MoveFromClaiming(Claimed);
        outcome := Some(moved);
      } else {
        assert c.lost[0] in c.lost;
        var moved := MoveFromClaiming(Stuck);
        outcome := Some(false);
      }
    }
  }

  /** The tracked outputs' steps, read off one by one. */
  method Judge(listing: seq<Outpoint>, steps: Steps, error: bool) returns (c: Claims)
    ensures Judged(listing, steps, c) && c.error == error
  {
    var settled, lost, confirmed := true, [], [];
    for i := 0 to |listing|
      invariant Judged(listing[..i], steps, Claims(settled, lost, confirmed, error))
    {
      var key := listing[i];
      assert listing[..i + 1] == listing[..i] + [key];
      if key in steps && IsLost(steps[key]) {
        lost := lost + [key];
      } else if key in steps && steps[key].Confirmed? {
        confirmed := confirmed + [key];
      } else {
        settled := false;
      }
    }
    assert listing[..|listing|] == listing;
    c := Claims(settled, lost, confirmed, error);
  }

  // ---- what a tick has done so far ----

  /** The outputs from the `i`th on stand as they did, nothing is forgotten, and only listed outputs are kept. */
  ghost predicate Untouched(listing: seq<Outpoint>, i: nat, steps0: Steps, steps: Steps)
    requires i <= |listing|
  {
    && steps0.Keys <= steps.Keys && (forall k :: k in steps ==> k in listing)
    && forall j :: i <= j < |listing| ==> (listing[j] in steps <==> listing[j] in steps0)
                                          && (listing[j] in steps0 ==> steps[listing[j]] == steps0[listing[j]])
  }

  /** Each output driven is where its drive said it got. */
  ghost predicate Followed(listing: seq<Outpoint>, steps0: Steps, drives: Outpoint -> Drive, steps: Steps) {
    forall k :: k in listing && !IsConfirmed(steps0, k) && drives(k).answer.Reached? ==>
      k in steps && steps[k] == drives(k).answer.step
  }

  lemma StartOf(listing: seq<Outpoint>, steps0: Steps, drives: Outpoint -> Drive)
    ensures (forall k :: k in steps0 ==> k in listing) ==> Untouched(listing, 0, steps0, steps0)
    ensures Followed(listing[..0], steps0, drives, steps0) && Drives(listing[..0], steps0) == []
  {
  }

  lemma NoDrives(steps: Steps)
    ensures Drives([], steps) == []
  {
  }

  lemma DrivesStep(listing: seq<Outpoint>, i: nat, steps0: Steps)
    requires i < |listing|
    ensures Drives(listing[..i + 1], steps0) ==
            Drives(listing[..i], steps0) + if IsConfirmed(steps0, listing[i]) then [] else [(listing[i], RecordOf(steps0, listing[i]))]
  {
    assert listing[..i + 1][..i] == listing[..i];
  }

  lemma UntouchedHere(listing: seq<Outpoint>, i: nat, steps0: Steps, steps: Steps)
    requires i < |listing| && Untouched(listing, i, steps0, steps)
    ensures IsConfirmed(steps, listing[i]) == IsConfirmed(steps0, listing[i])
    ensures RecordOf(steps, listing[i]) == RecordOf(steps0, listing[i])
  {
  }

  lemma UntouchedOn(listing: seq<Outpoint>, i: nat, steps0: Steps, before: Steps, steps: Steps)
    requires i < |listing| && Distinct(listing) && Untouched(listing, i, steps0, before)
    requires steps.Keys <= before.Keys + {listing[i]}
    requires forall k :: k in before && k != listing[i] ==> k in steps && steps[k] == before[k]
    requires listing[i] in before ==> listing[i] in steps
    ensures Untouched(listing, i + 1, steps0, steps)
  {
  }

  lemma FollowedOn(listing: seq<Outpoint>, i: nat, steps0: Steps, drives: Outpoint -> Drive, before: Steps, steps: Steps)
    requires i < |listing| && Distinct(listing)
    requires forall k :: k in before && k != listing[i] ==> k in steps && steps[k] == before[k]
    requires IsConfirmed(steps0, listing[i]) || !drives(listing[i]).answer.Reached?
             || (listing[i] in steps && steps[listing[i]] == drives(listing[i]).answer.step)
    requires Followed(listing[..i], steps0, drives, before)
    ensures Followed(listing[..i + 1], steps0, drives, steps)
  {
    assert listing[..i + 1] == listing[..i] + [listing[i]];
  }

  lemma GrowsFrom(earlier: seq<Steps>, log: seq<Steps>)
    requires earlier != [] && earlier <= log && Grows(log)
    ensures Follows(earlier[|earlier| - 1], log[|log| - 1])
  {
    assert log[|earlier| - 1] == earlier[|earlier| - 1];
  }

  lemma SelfFollows(steps: Steps)
    ensures Follows(steps, steps)
  {
  }

  // ---- over ticks and crashes ----

  /** Between any two moments of a row's life: what was tracked is tracked, what was confirmed is confirmed. */
  lemma NothingDropped(row: SwapRow, i: nat, j: nat, k: Outpoint)
    requires row.Valid() && i <= j < |row.log| && k in row.log[i]
    ensures k in row.log[j] && (row.log[i][k].Confirmed? ==> row.log[j][k] == row.log[i][k])
  {
    assert Follows(row.log[i], row.log[j]);
  }

  lemma {:induction false} DrivenWho(listing: seq<Outpoint>, steps: Steps, k: Outpoint)
    requires Distinct(listing)
    ensures (exists i :: 0 <= i < |Drives(listing, steps)| && Drives(listing, steps)[i].0 == k) <==> k in listing && !IsConfirmed(steps, k)
    ensures forall i, j :: 0 <= i < j < |Drives(listing, steps)| ==> Drives(listing, steps)[i].0 != Drives(listing, steps)[j].0
  {
    if listing != [] {
      var n := |listing| - 1;
      var earlier := Drives(listing[..n], steps);
      assert listing == listing[..n] + [listing[n]];
      DrivenWho(listing[..n], steps, k);
      DrivenWho(listing[..n], steps, listing[n]);
      if k == listing[n] && !IsConfirmed(steps, k) {
        assert Drives(listing, steps)[|earlier|].0 == k;
      }
      if exists i :: 0 <= i < |earlier| && earlier[i].0 == k {
        var i :| 0 <= i < |earlier| && earlier[i].0 == k;
        assert Drives(listing, steps)[i].0 == k;
      }
    }
  }
}
