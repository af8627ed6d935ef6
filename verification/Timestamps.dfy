/** Clock readings, the interval arithmetic of `addTime` and the one-shot timer setting. */
module Timestamps {

  /** Microseconds since the epoch, as a `Timestamp` stores them. */
  type Timestamp = int

  const INVALID: Timestamp := 0
  const MICROS_PER_SECOND := 1_000_000

  /** The shortest delay ever handed to the kernel: a delay of zero would disarm the timer. */
  const MIN_DELAY := 100

  predicate Valid(t: Timestamp) {
    t > 0
  }

  function Later(a: Timestamp, b: Timestamp): (r: Timestamp)
    ensures r >= a && r >= b && (r == a || r == b)
  {
    if a < b then b else a
  }

  /** `static_cast<int64_t>` of a double: rounds toward zero. */
  function Truncate(r: real): int {
    if r >= 0.0 then r.Floor else -((-r).Floor)
  }

  function AddTime(t: Timestamp, seconds: real): Timestamp {
    t + Truncate(seconds * 1_000_000.0)
  }

  /** The interval is counted in microseconds, and what is less than one is dropped, toward zero. */
  lemma AddTimeCountsMicros(t: Timestamp, seconds: real)
    ensures var micros := AddTime(t, seconds) - t;
      if seconds >= 0.0
      then micros as real <= seconds * 1_000_000.0 < (micros + 1) as real
      else (micros - 1) as real < seconds * 1_000_000.0 <= micros as real
  {
    var micros := seconds * 1_000_000.0;
    if seconds >= 0.0 {
      assert micros.Floor as real <= micros < (micros.Floor + 1) as real;
    } else {
      assert (-micros).Floor as real <= -micros < ((-micros).Floor + 1) as real;
    }
  }

  /** A positive interval never moves a timer back, and moves it forward from one microsecond on. */
  lemma AddTimeMovesForward(t: Timestamp, seconds: real)
    requires seconds > 0.0
    ensures AddTime(t, seconds) >= t
    ensures AddTime(t, seconds) > t <==> seconds * 1_000_000.0 >= 1.0
    ensures (AddTime(t, seconds) - t) as real <= seconds * 1_000_000.0 < (AddTime(t, seconds) - t + 1) as real
  {
    AddTimeCountsMicros(t, seconds);
  }

  /** The `it_value` of a timer setting: whole seconds and nanoseconds. */
  datatype Timespec = Timespec(sec: int, nsec: int)

  function HowMuchTimeFromNow(when: Timestamp, now: Timestamp): Timespec {
    var micros := when - now;
    var delay := if micros < MIN_DELAY then MIN_DELAY else micros;
    Timespec(delay / MICROS_PER_SECOND, (delay % MICROS_PER_SECOND) * 1000)
  }

  /** What `timerfd_settime` does with a relative setting: all zero disarms, anything else is a deadline. */
  datatype Alarm = Disarmed | Armed(deadline: Timestamp) {
    /** One-shot and level triggered: readable from the deadline until it is read or set again. */
    predicate Readable(clock: Timestamp) {
      Armed? && deadline <= clock
    }
  }

  function SetTime(ts: Timespec, clock: Timestamp): Alarm {
    if ts.sec == 0 && ts.nsec == 0 then Disarmed
    else Armed(clock + ts.sec * MICROS_PER_SECOND + ts.nsec / 1000)
  }

  /**
    The conversion to seconds and nanoseconds loses nothing, is legal for the kernel, never disarms,
    and asks for the expiration itself unless that is less than the floor away.
   */
  lemma ResetArms(when: Timestamp, clock: Timestamp)
    ensures var ts := HowMuchTimeFromNow(when, clock); 0 <= ts.sec && 0 <= ts.nsec < 1_000_000_000
    ensures SetTime(HowMuchTimeFromNow(when, clock), clock) == Armed(Later(when, clock + MIN_DELAY))
  {
    var delay := if when - clock < MIN_DELAY then MIN_DELAY else when - clock;
    assert delay == delay / MICROS_PER_SECOND * MICROS_PER_SECOND + delay % MICROS_PER_SECOND;
    assert ((delay % MICROS_PER_SECOND) * 1000) / 1000 == delay % MICROS_PER_SECOND;
  }
}
