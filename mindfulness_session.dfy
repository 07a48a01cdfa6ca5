/**
 * The five-minute countdown of src/components/MindfulnessSession.tsx. While
 * the session is not paused and time is left, an interval takes one second
 * off `timeLeft` each second; one run of its callback is one `Tick`. The
 * clock is shown as zero-padded `mm:ss`.
 */
module MindfulnessSession {
  import opened Wrappers
  import opened Text

  /** The session length in seconds, the initial `timeLeft`. */
  const SessionSeconds: int := 300

  datatype Countdown = Countdown(timeLeft: int, isPaused: bool)

  /** The state on mount. */
  const Initial: Countdown := Countdown(SessionSeconds, false)

  /** What one second does: the interval only runs unpaused with time left. */
  function Step(c: Countdown): Countdown {
    if !c.isPaused && c.timeLeft > 0 then c.(timeLeft := c.timeLeft - 1) else c
  }

  /** `n` seconds in a row. */
  function Run(c: Countdown, n: nat): Countdown
    decreases n
  {
    if n == 0 then c else Run(Step(c), n - 1)
  }

  /** The reachable states: the clock stays within the session. */
  predicate Inv(c: Countdown) {
    0 <= c.timeLeft <= SessionSeconds
  }

  /** Ticks keep the clock within `[0, 300]`: it never goes negative. */
  lemma StepInv(c: Countdown)
    requires Inv(c)
    ensures Inv(Step(c))
    ensures Step(c).timeLeft >= c.timeLeft - 1
  {
  }

  /** While paused, a tick changes nothing. */
  lemma PausedTick(c: Countdown)
    requires c.isPaused
    ensures Step(c) == c
  {
  }

  /** `n` unpaused seconds take `n` off the clock, stopping at 0; the pause flag is kept. */
  lemma {:induction false} RunUnpaused(c: Countdown, n: nat)
    requires !c.isPaused && c.timeLeft >= 0
    ensures Run(c, n) == Countdown(if n <= c.timeLeft then c.timeLeft - n else 0, false)
    decreases n
  {
    if n > 0 {
      RunUnpaused(Step(c), n - 1);
    }
  }

  /** From mount, the clock reaches 0 after 300 unpaused seconds and then stays at 0. */
  lemma SessionEnds(n: nat)
    requires n >= SessionSeconds
    ensures Run(Initial, n).timeLeft == 0
    ensures Run(Initial, SessionSeconds - 1).timeLeft == 1
  {
    RunUnpaused(Initial, n);
    RunUnpaused(Initial, SessionSeconds - 1);
  }

  /**
   * The elapsed seconds, `300 - timeLeft`, the numerator of the progress
   * bar's percentage.
   */
  function Elapsed(c: Countdown): (e: int)
    requires Inv(c)
    ensures 0 <= e <= SessionSeconds
    ensures e == 0 <==> c.timeLeft == SessionSeconds
  {
    SessionSeconds - c.timeLeft
  }

  /** `formatTime`: minutes and seconds, each `padStart(2, '0')`-ed, joined by ':'. */
  function FormatTime(seconds: nat): string {
    PadStart2(NatToString(seconds / 60)) + ":" + PadStart2(NatToString(seconds % 60))
  }

  /**
   * The clock reads back as the minutes and seconds it was made from, so
   * `m * 60 + s == seconds`; below 100 minutes it is exactly five
   * characters, `mm:ss`.
   */
  lemma FormatTimeRoundTrip(seconds: nat)
    ensures ParseClock(FormatTime(seconds)) == Some((seconds / 60, seconds % 60))
    ensures var f := FormatTime(seconds); seconds < 6000 ==> |f| == 5 && f[2] == ':'
  {
    var m, s := NatToString(seconds / 60), NatToString(seconds % 60);
    PadNumeral(m);
    PadNumeral(s);
    ParseNatToString(seconds / 60);
    ParseNatToString(seconds % 60);
    ParseClockOf(PadStart2(m), PadStart2(s));
    NatToStringLength(seconds / 60);
    NatToStringLength(seconds % 60);
  }

  /** The full session shows as "05:00". */
  lemma FormatInitial()
    ensures FormatTime(SessionSeconds) == "05:00"
  {
  }

  /** The session component's state. */
  class Session {
    var timeLeft: int
    var isPaused: bool

    function Current(): Countdown
      reads this
    {
      Countdown(timeLeft, isPaused)
    }

    ghost predicate Valid()
      reads this
    {
      Inv(Current())
    }

    constructor ()
      ensures Valid() && Current() == Initial
    {
      timeLeft := SessionSeconds;
      isPaused := false;
    }

    /** One second of the interval, when one is running. */
    method Tick()
      requires Valid()
      modifies this`timeLeft
      ensures Valid()
      ensures Current() == Step(old(Current()))
    {
      if !isPaused && timeLeft > 0 {
        timeLeft := timeLeft - 1;
      }
    }

    /** `togglePause`: flips the pause flag and leaves the clock. */
    method TogglePause()
      modifies this`isPaused
      ensures isPaused == !old(isPaused) && timeLeft == old(timeLeft)
    {
      isPaused := !isPaused;
    }

    /** What the clock shows. */
    function Display(): (d: string)
      reads this
      requires Valid()
      ensures |d| == 5 && d[2] == ':'
      ensures ParseClock(d) == Some((timeLeft / 60, timeLeft % 60))
    {
      FormatTimeRoundTrip(timeLeft);
      FormatTime(timeLeft)
    }
  }
}
