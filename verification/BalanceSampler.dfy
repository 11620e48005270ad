/**
 * Cached balances. Each method is one turn of the event loop: a call, a continuation that had
 * been waiting, or a read coming back; they may follow each other in any order.
 */
module BalanceSampler {
  import opened Util

  datatype Sampled<+T> = Sampled(value: T, at: nat)

  datatype Lightning = Lightning(availableSats: int, incomingSats: int)

  datatype Reading = Reading(arkade: Option<Sampled<int>>, lightning: Option<Sampled<Lightning>>)

  /** A read under way: reads are numbered as they begin, and `at` is the clock then. */
  datatype Read = Read(number: nat, at: nat)

  /** A refresh waiting for its turn, after the read that was under way when it was first asked for. */
  datatype Turn = Turn(number: nat, after: Option<nat>)

  /** One call of `refresh`: how many reads had begun, which was under way, and which its turn waits for. */
  datatype Call = Call(turn: nat, begun: nat, seen: Option<nat>, after: Option<nat>)

  /** A side that failed, or is absent, keeps its previous sample. */
  function Remember<T>(previous: Option<Sampled<T>>, next: Option<T>, at: nat): Option<Sampled<T>> {
    if next.None? then previous else Some(Sampled(next.value, at))
  }

  function Side<T>(s: Option<Sampled<T>>): nat {
    if s.Some? then s.value.at else 0
  }

  /** How a turn was answered: with which read, and which was under way when the turn ran. */
  datatype Answer = Answer(read: nat, under: Option<nat>)

  /** The read a call saw under way, which is not the one its turn waits for, still is when the turn runs. */
  predicate Late(c: Call, under: Option<nat>) {
    c.seen.Some? && c.seen != c.after && c.seen == under
  }

  /** The call was answered with a read begun after it, except when it joined its turn late. */
  ghost predicate Answered(c: Call, a: Answer) {
    && (a.read < c.begun <==> Late(c, a.under))
    && (a.under.Some? ==> a.read == a.under.value)
  }

  class Sampler {
    const hasLightning: bool
    var reading: Option<Reading>
    var inFlight: Option<Read>
    var refreshAfter: Option<Turn>
    /** How many reads have begun and how many turns were made: the identity of the next promise. */
    var begun: nat
    var turns: nat
    ghost var running: set<nat>
    ghost var calls: seq<Call>
    ghost var answers: map<nat, Answer>
    ghost var clock: nat

    ghost predicate Valid()
      reads this
    {
      && running == (if inFlight.Some? then {inFlight.value.number} else {})
      && (inFlight.Some? ==> inFlight.value.number + 1 == begun && inFlight.value.at <= clock && NotAfter(inFlight.value.at))
      && NotAfter(clock)
      && (refreshAfter.Some? ==> refreshAfter.value.number + 1 == turns && refreshAfter.value.number !in answers
                                 && (refreshAfter.value.after.Some? ==> refreshAfter.value.after.value < begun))
      && (forall c :: c in calls ==> CallValid(c))
      && (forall t :: t in answers ==> t < turns)
    }

    ghost predicate CallValid(c: Call)
      reads this
    {
      && c.begun <= begun && c.turn < turns && (c.seen.Some? ==> c.seen.value + 1 == c.begun)
      && (c.turn in answers ==> Answered(c, answers[c.turn]))
      && (c.turn !in answers ==> refreshAfter.Some? && refreshAfter.value.number == c.turn && refreshAfter.value.after == c.after
                                 && (inFlight.Some? ==> inFlight.value.number >= c.begun || Some(inFlight.value.number) == c.seen))
    }

    /** No sample is newer than `at`. */
    ghost predicate NotAfter(at: nat)
      reads this
    {
      reading.Some? ==> Side(reading.value.arkade) <= at && Side(reading.value.lightning) <= at
    }

    constructor (hasLightning: bool)
      ensures Valid() && this.hasLightning == hasLightning && reading.None? && inFlight.None? && refreshAfter.None?
      ensures calls == [] && begun == 0 && answers == map[] && clock == 0
    {
      this.hasLightning := hasLightning;
      reading, inFlight, refreshAfter := None, None, None;
      begun, running, turns, calls, answers, clock := 0, {}, 0, [], map[], 0;
    }

    /** The read under way, or a new one; never two at once. */
    method Join(now: nat) returns (r: Read)
      requires Valid() && now >= clock
      modifies this`inFlight, this`begun, this`running, this`clock
      ensures Valid() && inFlight == Some(r) && clock >= old(clock)
      ensures old(inFlight).Some? ==> r == old(inFlight).value && begun == old(begun) && clock == old(clock)
      ensures old(inFlight).None? ==> r == Read(old(begun), now) && begun == old(begun) + 1 && clock == now
    {
      if inFlight.Some? { return inFlight.value; }
      r := Read(begun, now);
      inFlight := Some(r);
      running := running + {r.number};
      begun, clock := begun + 1, now;
    }

    /** The timer's call: it never stacks a read behind a hung one. */
    method Sample(now: nat)
      requires Valid() && now >= clock
      modifies this`inFlight, this`begun, this`running, this`clock
      ensures Valid() && |running| == 1 && reading == old(reading)
      ensures old(inFlight).Some? ==> inFlight == old(inFlight) && begun == old(begun) && clock == old(clock)
      ensures old(inFlight).None? ==> inFlight == Some(Read(old(begun), now)) && begun == old(begun) + 1 && clock == now
    {
      var r := Join(now);
    }

    /** A call of `refresh`: it shares the turn already waiting, if there is one. */
    method Refresh() returns (turn: nat)
      requires Valid()
      modifies this`refreshAfter, this`turns, this`calls
      ensures Valid() && refreshAfter.Some? && turn == refreshAfter.value.number
      ensures old(refreshAfter).Some? ==> refreshAfter == old(refreshAfter)
      ensures old(refreshAfter).None? ==> refreshAfter.value.after == Under()
      ensures calls == old(calls) + [Call(turn, begun, Under(), refreshAfter.value.after)]
    {
      var under := if inFlight.Some? then Some(inFlight.value.number) else None;
      if refreshAfter.None? {
        refreshAfter := Some(Turn(turns, under));
        turns := turns + 1;
      }
      turn := refreshAfter.value.number;
      calls := calls + [Call(turn, begun, under, refreshAfter.value.after)];
    }

    ghost function Under(): Option<nat>
      reads this
    {
      if inFlight.Some? then Some(inFlight.value.number) else None
    }

    /** The continuation of a waiting refresh, once the read it waits for is over. */
    method RunTurn(now: nat) returns (answer: nat)
      requires Valid() && now >= clock && refreshAfter.Some?
      requires refreshAfter.value.after.None? || Under() != refreshAfter.value.after
      modifies this`inFlight, this`begun, this`running, this`clock, this`refreshAfter, this`answers
      ensures Valid() && refreshAfter.None? && inFlight.Some? && answer == inFlight.value.number
      ensures answers == old(answers)[old(refreshAfter).value.number := Answer(answer, old(Under()))]
      ensures forall c :: c in calls && c.turn == old(refreshAfter).value.number ==> (answer < c.begun <==> Late(c, old(Under())))
      ensures answer == if old(inFlight).Some? then old(inFlight).value.number else old(begun)
    {
      ghost var under := Under();
      var r := Join(now);
      answer := r.number;
      answers := answers[refreshAfter.value.number := Answer(answer, under)];
      refreshAfter := None;
    }

    /** A read comes back: each side that was read is renewed, each that failed keeps what it had. */
    method EndRead(arkade: Option<int>, lightning: Option<Lightning>) returns (ok: bool)
      requires Valid() && inFlight.Some?
      modifies this`reading, this`inFlight, this`running
      ensures Valid() && inFlight.None? && running == {}
      ensures ok <==> arkade.Some? && (!hasLightning || lightning.Some?)
      ensures reading == Some(Reading(
                Remember(if old(reading).Some? then old(reading).value.arkade else None, arkade, old(inFlight).value.at),
                if hasLightning then Remember(if old(reading).Some? then old(reading).value.lightning else None, lightning, old(inFlight).value.at)
                else None))
      ensures old(reading).Some? ==> Side(old(reading).value.arkade) <= Side(reading.value.arkade)
      ensures old(reading).Some? && hasLightning ==> Side(old(reading).value.lightning) <= Side(reading.value.lightning)
    {
      var at := inFlight.value.at;
      var previous := if reading.Some? then reading.value else Reading(None, None);
      reading := Some(Reading(Remember(previous.arkade, arkade, at),
                              if hasLightning then Remember(previous.lightning, lightning, at) else None));
      inFlight, running := None, {};
      ok := arkade.Some? && (!hasLightning || lightning.Some?);
    }
  }

  /**
   * What an answered call got, whatever came between: a read begun after it, except exactly when
   * it saw a read under way, not the one its turn waits for, that still was when the turn ran.
   */
  lemma AnswersFollowCalls(s: Sampler, c: Call)
    requires s.Valid() && c in s.calls && c.turn in s.answers
    ensures s.answers[c.turn].read < c.begun <==> c.seen.Some? && c.seen != c.after && c.seen == s.answers[c.turn].under
  {
    assert s.CallValid(c);
  }

  /**
   * The late join: the read a refresh waited for has ended and, before its turn runs, another
   * continuation begins the next read and a third asks again: it shares the waiting turn, which
   * then answers with that read. No timer fires between those continuations.
   */
  method LateJoin() returns (s: Sampler)
    ensures fresh(s) && s.Valid() && |s.calls| == 2 && s.calls[0].turn == s.calls[1].turn && s.calls[1].turn in s.answers
    ensures s.answers[s.calls[1].turn].read < s.calls[1].begun && s.answers[s.calls[0].turn].read >= s.calls[0].begun
    ensures Late(s.calls[1], s.answers[s.calls[1].turn].under)
  {
    s := new Sampler(false);
    s.Sample(1);
    var first := s.Refresh();
    var ok := s.EndRead(Some(0), None);
    s.Sample(2);
    var second := s.Refresh();
    var answer := s.RunTurn(3);
  }
}
