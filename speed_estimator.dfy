/** The speed estimator: an IR sensor is polled every 10 ms. A falling edge
    (hand arrives) starts a timer, and the following rising edge (hand leaves)
    reports the time the hand was seen and a speed inversely proportional to it.

    As for the air piano, the loop body is a pure transition `Next` plus a
    class `Estimator` whose `Step` updates the two script variables in place. */
module SpeedEstimator {

  import opened Wrappers
  import opened Gpio

  /** The scale of the reported speed: `SCALE / (duration + 1)`. */
  const SCALE: real := 1000.0

  /** The two variables of the script. */
  datatype Edge = Edge(start: int, lastState: PinValue)

  /** Their values when the script starts: no hand seen. */
  const INIT := Edge(0, HIGH)

  /** What a rising edge reports. `speed` is `None` where the division by
      `duration + 1` is a division by zero, which stops the script with an error. */
  datatype Measurement = Measurement(duration: int, speed: Option<real>)

  /** `1000 / (duration + 1)`, computed exactly. */
  function Speed(duration: int): (r: Option<real>)
    ensures r.None? <==> duration == -1
    ensures r.Some? ==> r.value * (duration + 1) as real == SCALE
  {
    if duration + 1 == 0 then None else Some(SCALE / (duration + 1) as real)
  }

  /** For every non-negative duration the speed exists and is positive, and a
      longer duration gives a strictly smaller speed. */
  lemma SpeedPositiveAndDecreasing(d1: int, d2: int)
    requires 0 <= d1 < d2
    ensures Speed(d1).Some? && Speed(d2).Some?
    ensures Speed(d1).value > Speed(d2).value > 0.0
  {
    var x1, x2 := (d1 + 1) as real, (d2 + 1) as real;
    assert 0.0 < x1 < x2;
    assert x1 * x2 > 0.0;
    assert SCALE * (x2 - x1) > 0.0;
    assert SCALE / x1 - SCALE / x2 == SCALE * (x2 - x1) / (x1 * x2);
    assert SCALE / x2 > 0.0;
  }

  /** The state after one poll and what it reports, if anything. */
  datatype Outcome = Outcome(next: Edge, report: Option<Measurement>)

  /** One pass of the polling loop with sensor value `reading`; `now` is the
      time of the pass's clock read (a pass reads the clock at most once). */
  function Next(e: Edge, reading: PinValue, now: int): (r: Outcome)
    ensures r.next.lastState == reading
    ensures r.next.start != e.start ==> reading == LOW && e.lastState == HIGH
    ensures reading == LOW && e.lastState == HIGH ==> r.next.start == now
    ensures r.report.Some? <==> reading == HIGH && e.lastState == LOW
    ensures r.report.Some? ==> r.report.value.duration == now - e.start
    ensures r.report.Some? ==> r.report.value.speed == Speed(r.report.value.duration)
    ensures reading == e.lastState ==> r == Outcome(e, None)
  {
    var start := if reading == LOW && e.lastState == HIGH then now else e.start;
    var report :=
      if reading == HIGH && e.lastState == LOW
      then Some(Measurement(now - start, Speed(now - start)))
      else None;
    Outcome(Edge(start, reading), report)
  }

  /** One poll's inputs. */
  datatype Poll = Poll(reading: PinValue, now: int)

  /** The measurements reported by a sequence of polls starting from `e`, in order. */
  function Reports(e: Edge, polls: seq<Poll>): seq<Measurement>
    decreases |polls|
  {
    if polls == [] then []
    else
      var r := Next(e, polls[0].reading, polls[0].now);
      (if r.report.Some? then [r.report.value] else []) + Reports(r.next, polls[1..])
  }

  /** The clock never runs backwards over `polls`, none of which is earlier than `t`. */
  predicate NonDecreasingFrom(t: int, polls: seq<Poll>)
  {
    (forall i :: 0 <= i < |polls| ==> t <= polls[i].now) &&
    (forall i, j :: 0 <= i < j < |polls| ==> polls[i].now <= polls[j].now)
  }

  /** While a hand is in front of the sensor, the timer was started no later
      than the last poll, at time `t`. */
  predicate StartedBefore(e: Edge, t: int)
  {
    e.lastState == LOW ==> e.start <= t
  }

  /** With a clock that does not run backwards, every report follows the
      falling edge that started its timer, so its duration is non-negative
      (and its speed is the formula's value for that duration). */
  lemma {:induction false} ReportsNonNegative(e: Edge, t: int, polls: seq<Poll>)
    requires StartedBefore(e, t)
    requires NonDecreasingFrom(t, polls)
    ensures forall m :: m in Reports(e, polls) ==> m.duration >= 0 && m.speed == Speed(m.duration)
    decreases |polls|
  {
    if polls != [] {
      var p := polls[0];
      var r := Next(e, p.reading, p.now);
      assert StartedBefore(r.next, p.now);
      assert NonDecreasingFrom(p.now, polls[1..]) by {
        forall i | 0 <= i < |polls[1..]| ensures p.now <= polls[1..][i].now {
          assert polls[1..][i] == polls[i + 1];
        }
      }
      ReportsNonNegative(r.next, p.now, polls[1..]);
    }
  }

  /** From the initial state, with a clock that does not run backwards, every
      reported duration is non-negative and every speed is positive. */
  lemma InitReportsPositive(polls: seq<Poll>)
    requires forall i, j :: 0 <= i < j < |polls| ==> polls[i].now <= polls[j].now
    ensures forall m :: m in Reports(INIT, polls) ==>
      m.duration >= 0 && m.speed.Some? && m.speed.value > 0.0
  {
    if polls != [] {
      assert NonDecreasingFrom(polls[0].now, polls) by {
        forall i | 0 <= i < |polls| ensures polls[0].now <= polls[i].now {
        }
      }
      ReportsNonNegative(INIT, polls[0].now, polls);
      forall m | m in Reports(INIT, polls)
        ensures m.speed.Some? && m.speed.value > 0.0
      {
        SpeedPositiveAndDecreasing(m.duration, m.duration + 1);
      }
    }
  }

  /** The script's variables, updated in place by each poll. */
  class Estimator {
    var start: int
    var lastState: PinValue

    function State(): Edge
      reads this
    {
      Edge(start, lastState)
    }

    constructor ()
      ensures State() == INIT
    {
      start := 0;
      lastState := HIGH;
    }

    /** One pass of the `while True` body; returns what it reports, if anything. */
    method Step(reading: PinValue, now: int) returns (report: Option<Measurement>)
      modifies this
      ensures State() == Next(old(State()), reading, now).next
      ensures report == Next(old(State()), reading, now).report
    {
      report := None;
      if reading == LOW && lastState == HIGH {
        start := now;
      }
      if reading == HIGH && lastState == LOW {
        var duration := now - start;
        var speed: Option<real> := None;
        if duration + 1 != 0 {
          speed := Some(SCALE / (duration + 1) as real);
        }
        report := Some(Measurement(duration, speed));
      }
      lastState := reading;
    }
  }
}
