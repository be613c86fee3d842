/** The air piano: an IR sensor is polled every 10 ms; how long a hand is held
    in front of it, or whether it was tapped twice in quick succession,
    selects one note that the buzzer plays when the hand is taken away.

    The `while True` body is modelled twice: as the pure transition function
    `Next`, which the lemmas reason about, and as the method
    `GestureDetector.Step`, which updates the four module-level variables in
    place exactly as the script does and is proved to agree with `Next`. */
module AirPiano {

  import opened Wrappers
  import opened Gpio

  /** The five notes of the note table. */
  datatype Note = C | D | E | G | A

  /** The note table: note name to frequency in Hz. */
  const NOTES: map<string, nat> :=
    map["C" := 262, "D" := 294, "E" := 330, "G" := 392, "A" := 440]

  /** A second release ending less than this many ms after the previous one
      counts as a double tap. */
  const DOUBLE_TAP_MS := 400
  /** Upper bounds (exclusive, in ms) of the quick, medium and long holds. */
  const QUICK_TAP_MS := 200
  const MEDIUM_HOLD_MS := 600
  const LONG_HOLD_MS := 1200

  function Name(n: Note): string
  {
    match n
    case C => "C"
    case D => "D"
    case E => "E"
    case G => "G"
    case A => "A"
  }

  /** The frequency handed to the buzzer for note `n`: its entry in the note table. */
  function Freq(n: Note): (hz: nat)
    ensures Name(n) in NOTES && hz == NOTES[Name(n)]
    ensures hz in NOTES.Values
  {
    NOTES[Name(n)]
  }

  /** The note of a single tap, by how long the hand was held. */
  function HoldNote(duration: int): (n: Note)
    ensures n == C <==> duration < QUICK_TAP_MS
    ensures n == D <==> QUICK_TAP_MS <= duration < MEDIUM_HOLD_MS
    ensures n == E <==> MEDIUM_HOLD_MS <= duration < LONG_HOLD_MS
    ensures n == A <==> LONG_HOLD_MS <= duration
    ensures n != G
  {
    if duration < QUICK_TAP_MS then C
    else if duration < MEDIUM_HOLD_MS then D
    else if duration < LONG_HOLD_MS then E
    else A
  }

  /** The four module-level variables of the gesture detector. */
  datatype Gesture = Gesture(holding: bool, startTime: int, lastTrigger: int, tapCount: int)

  /** Their values when the script starts. */
  const INIT := Gesture(false, 0, 0, 0)

  /** Between two polls the tap counter has been reset or holds one tap. */
  predicate TapCountValid(g: Gesture)
  {
    0 <= g.tapCount <= 1
  }

  /** The state after one poll and the note played during it, if any. */
  datatype Outcome = Outcome(next: Gesture, note: Option<Note>)

  /** The tap counter as updated on a release at time `now`, before a double
      tap resets it. */
  function CountedTaps(g: Gesture, now: int): int
  {
    if now - g.lastTrigger < DOUBLE_TAP_MS then g.tapCount + 1 else 1
  }

  /** One pass of the polling loop: the sensor reads `reading` and the clock
      reads `now` (one timestamp serves both clock reads of a release). */
  function Next(g: Gesture, reading: PinValue, now: int): (r: Outcome)
    ensures r.note.Some? <==> reading == HIGH && g.holding
    ensures TapCountValid(g) ==> TapCountValid(r.next)
  {
    if reading == LOW then
      if g.holding then Outcome(g, None)
      else Outcome(g.(holding := true, startTime := now), None)
    else if g.holding then
      var duration := now - g.startTime;
      var taps := CountedTaps(g, now);
      var g' := g.(holding := false, lastTrigger := now);
      if taps == 2 then Outcome(g'.(tapCount := 0), Some(G))
      else Outcome(g'.(tapCount := taps), Some(HoldNote(duration)))
    else Outcome(g, None)
  }

  /** A hand arriving starts a hold at `now`; a hand that stays does not
      restart it. Nothing else changes and no note is played. */
  lemma PressStartsHold(g: Gesture, now: int)
    ensures var r := Next(g, LOW, now);
      && r.note == None
      && r.next.holding
      && r.next.startTime == (if g.holding then g.startTime else now)
      && r.next.lastTrigger == g.lastTrigger
      && r.next.tapCount == g.tapCount
  {
  }

  /** No hand and no hold: the poll changes nothing. */
  lemma IdleChangesNothing(g: Gesture, now: int)
    requires !g.holding
    ensures Next(g, HIGH, now) == Outcome(g, None)
  {
  }

  /** A release ends the hold, records `now` as the last trigger and plays
      exactly one note: G when it completes a double tap (and the counter
      resets), otherwise the note of the hold's duration. */
  lemma ReleasePlaysOneNote(g: Gesture, now: int)
    requires g.holding
    ensures var r := Next(g, HIGH, now);
      && !r.next.holding
      && r.next.lastTrigger == now
      && r.next.startTime == g.startTime
      && r.note.Some?
      && (CountedTaps(g, now) == 2 ==> r.note == Some(G) && r.next.tapCount == 0)
      && (CountedTaps(g, now) != 2 ==>
            r.note == Some(HoldNote(now - g.startTime)) && r.next.tapCount == CountedTaps(g, now))
  {
  }

  /** The tap counter grows by one when the release is within the double-tap
      window of the previous one, and restarts at one otherwise. */
  lemma CountedTapsRule(g: Gesture, now: int)
    ensures now - g.lastTrigger < DOUBLE_TAP_MS ==> CountedTaps(g, now) == g.tapCount + 1
    ensures now - g.lastTrigger >= DOUBLE_TAP_MS ==> CountedTaps(g, now) == 1
    ensures TapCountValid(g) ==> 1 <= CountedTaps(g, now) <= 2
  {
  }

  /** One poll's inputs. */
  datatype Poll = Poll(reading: PinValue, now: int)

  /** The state after a sequence of polls, and the notes played, in order. */
  function Run(g: Gesture, polls: seq<Poll>): (Gesture, seq<Note>)
    decreases |polls|
  {
    if polls == [] then (g, [])
    else
      var r := Next(g, polls[0].reading, polls[0].now);
      var rest := Run(r.next, polls[1..]);
      (rest.0, (if r.note.Some? then [r.note.value] else []) + rest.1)
  }

  /** The number of polls in `polls` that release a hold (the hand is gone
      while a hold is in progress), starting from `g`. */
  function Releases(g: Gesture, polls: seq<Poll>): nat
    decreases |polls|
  {
    if polls == [] then 0
    else
      var r := Next(g, polls[0].reading, polls[0].now);
      (if polls[0].reading == HIGH && g.holding then 1 else 0) + Releases(r.next, polls[1..])
  }

  /** The tap counter stays in {0, 1} between polls over any run, and
      exactly one note is played per release. */
  lemma {:induction false} RunInvariant(g: Gesture, polls: seq<Poll>)
    requires TapCountValid(g)
    ensures TapCountValid(Run(g, polls).0)
    ensures |Run(g, polls).1| == Releases(g, polls)
    decreases |polls|
  {
    if polls != [] {
      var r := Next(g, polls[0].reading, polls[0].now);
      RunInvariant(r.next, polls[1..]);
    }
  }

  /** Starting from the initial state, the invariant holds after any run. */
  lemma InitRunInvariant(polls: seq<Poll>)
    ensures TapCountValid(Run(INIT, polls).0)
  {
    RunInvariant(INIT, polls);
  }

  /** Running `p` followed by `rest` is one poll, then the rest of the run. */
  lemma RunCons(g: Gesture, p: Poll, rest: seq<Poll>)
    ensures var r := Next(g, p.reading, p.now);
      Run(g, [p] + rest) ==
        (Run(r.next, rest).0, (if r.note.Some? then [r.note.value] else []) + Run(r.next, rest).1)
  {
    assert ([p] + rest)[1..] == rest;
  }

  /** Two taps whose releases are less than 400 ms apart, starting with the
      counter reset: the first plays its hold's note, the second plays G
      whatever its duration, and the counter is reset again. */
  lemma DoubleTapPlaysG(g: Gesture, t0: int, t1: int, t2: int, t3: int)
    requires !g.holding && g.tapCount == 0
    requires t3 - t1 < DOUBLE_TAP_MS
    ensures var polls := [Poll(LOW, t0), Poll(HIGH, t1), Poll(LOW, t2), Poll(HIGH, t3)];
      && Run(g, polls).1 == [HoldNote(t1 - t0), G]
      && Run(g, polls).0.tapCount == 0
      && !Run(g, polls).0.holding
  {
    var r0 := Next(g, LOW, t0);
    var r1 := Next(r0.next, HIGH, t1);
    var r2 := Next(r1.next, LOW, t2);
    var r3 := Next(r2.next, HIGH, t3);
    assert r1.note == Some(HoldNote(t1 - t0)) && r1.next.tapCount == 1;
    assert r3.note == Some(G) && r3.next.tapCount == 0;
    RunCons(r2.next, Poll(HIGH, t3), []);
    RunCons(r1.next, Poll(LOW, t2), [Poll(HIGH, t3)]);
    RunCons(r0.next, Poll(HIGH, t1), [Poll(LOW, t2), Poll(HIGH, t3)]);
    RunCons(g, Poll(LOW, t0), [Poll(HIGH, t1), Poll(LOW, t2), Poll(HIGH, t3)]);
  }

  /** A third quick tap after a double tap does not play G again: the counter
      was reset, so it plays the note of its own hold. */
  lemma TapAfterDoubleTapIsSingle(g: Gesture, t0: int, t1: int)
    requires !g.holding && g.tapCount == 0
    ensures var polls := [Poll(LOW, t0), Poll(HIGH, t1)];
      && Run(g, polls).1 == [HoldNote(t1 - t0)]
      && Run(g, polls).0.tapCount == 1
      && !Run(g, polls).0.holding
  {
    var r0 := Next(g, LOW, t0);
    var r1 := Next(r0.next, HIGH, t1);
    assert r1.note == Some(HoldNote(t1 - t0)) && r1.next.tapCount == 1;
    RunCons(r0.next, Poll(HIGH, t1), []);
    RunCons(g, Poll(LOW, t0), [Poll(HIGH, t1)]);
  }

  /** Running `a` then `b` is running `a`, then `b` from where `a` left off;
      the notes are those of `a` followed by those of `b`. */
  lemma {:induction false} RunAppend(g: Gesture, a: seq<Poll>, b: seq<Poll>)
    ensures Run(g, a + b) == (Run(Run(g, a).0, b).0, Run(g, a).1 + Run(Run(g, a).0, b).1)
    decreases |a|
  {
    if a == [] {
      assert a + b == b;
      assert Run(g, a).1 + Run(g, b).1 == Run(g, b).1;
    } else {
      var r := Next(g, a[0].reading, a[0].now);
      assert (a + b)[0] == a[0] && (a + b)[1..] == a[1..] + b;
      RunAppend(r.next, a[1..], b);
      var played := if r.note.Some? then [r.note.value] else [];
      var mid := Run(r.next, a[1..]);
      assert Run(g, a) == (mid.0, played + mid.1);
      assert played + (mid.1 + Run(mid.0, b).1) == (played + mid.1) + Run(mid.0, b).1;
    }
  }

  /** Three quick taps from a reset counter: the second plays G, the third
      plays the note of its own hold, so a triple tap plays G only once. */
  lemma TripleTapPlaysOneG(g: Gesture, t0: int, t1: int, t2: int, t3: int, t4: int, t5: int)
    requires !g.holding && g.tapCount == 0
    requires t3 - t1 < DOUBLE_TAP_MS
    ensures var polls := [Poll(LOW, t0), Poll(HIGH, t1), Poll(LOW, t2), Poll(HIGH, t3),
                          Poll(LOW, t4), Poll(HIGH, t5)];
      Run(g, polls).1 == [HoldNote(t1 - t0), G, HoldNote(t5 - t4)]
  {
    var double := [Poll(LOW, t0), Poll(HIGH, t1), Poll(LOW, t2), Poll(HIGH, t3)];
    var single := [Poll(LOW, t4), Poll(HIGH, t5)];
    DoubleTapPlaysG(g, t0, t1, t2, t3);
    TapAfterDoubleTapIsSingle(Run(g, double).0, t4, t5);
    RunAppend(g, double, single);
    assert double + single == [Poll(LOW, t0), Poll(HIGH, t1), Poll(LOW, t2), Poll(HIGH, t3),
                               Poll(LOW, t4), Poll(HIGH, t5)];
  }

  /** The module-level variables of the script, updated in place by each poll. */
  class GestureDetector {
    var holding: bool
    var startTime: int
    var lastTrigger: int
    var tapCount: int

    ghost predicate Valid()
      reads this
    {
      TapCountValid(State())
    }

    function State(): Gesture
      reads this
    {
      Gesture(holding, startTime, lastTrigger, tapCount)
    }

    constructor ()
      ensures Valid() && State() == INIT
    {
      lastTrigger := 0;
      tapCount := 0;
      startTime := 0;
      holding := false;
    }

    /** One pass of the `while True` body; returns the note played, if any. */
    method Step(reading: PinValue, now: int) returns (note: Option<Note>)
      requires Valid()
      modifies this
      ensures Valid()
      ensures State() == Next(old(State()), reading, now).next
      ensures note == Next(old(State()), reading, now).note
    {
      note := None;
      if reading == LOW {
        if !holding {
          holding := true;
          startTime := now;
        }
      }
      if reading == HIGH && holding {
        var duration := now - startTime;
        holding := false;
        if now - lastTrigger < DOUBLE_TAP_MS {
          tapCount := tapCount + 1;
        } else {
          tapCount := 1;
        }
        lastTrigger := now;
        if tapCount == 2 {
          note := Some(G);
          tapCount := 0;
        } else if duration < QUICK_TAP_MS {
          note := Some(C);
        } else if duration < MEDIUM_HOLD_MS {
          note := Some(D);
        } else if duration < LONG_HOLD_MS {
          note := Some(E);
        } else {
          note := Some(A);
        }
      }
    }
  }
}
