/**
 * The guided breathing exercise of src/components/BreathingExercise.tsx:
 * a once-a-second interval counts each phase down from 4, moving
 * inhale -> hold -> exhale -> inhale and, after the 75th exhale, to the
 * completion screen. The interval runs only while the exercise is active
 * and not complete; one run of its callback is one `Tick`.
 */
module BreathingExercise {

  datatype Phase = Inhale | Hold | Exhale | Complete

  /** Seconds per phase, the `4` every phase change resets `timeLeft` to. */
  const PhaseSeconds: int := 4
  /** `totalCycles`. */
  const TotalCycles: int := 75

  /** The component's four pieces of state. */
  datatype State = State(phase: Phase, timeLeft: int, cycleCount: int, isActive: bool)

  /** `startExercise`. */
  const Started: State := State(Inhale, PhaseSeconds, 0, true)
  /** The state on mount and after `restartExercise`. */
  const Ready: State := State(Inhale, PhaseSeconds, 0, false)

  /** The interval exists exactly while the exercise is active and not complete. */
  predicate Ticking(s: State) {
    s.isActive && s.phase != Complete
  }

  /**
   * What one interval callback does to the state; with no interval
   * running, nothing happens.
   */
  function Step(s: State): State {
    if !Ticking(s) then s
    else if s.timeLeft <= 1 then
      match s.phase
      case Inhale => s.(phase := Hold, timeLeft := PhaseSeconds)
      case Hold => s.(phase := Exhale, timeLeft := PhaseSeconds)
      case Exhale =>
        var newCycleCount := s.cycleCount + 1;
        if newCycleCount >= TotalCycles then State(Complete, 0, newCycleCount, false)
        else s.(phase := Inhale, timeLeft := PhaseSeconds, cycleCount := newCycleCount)
    else s.(timeLeft := s.timeLeft - 1)
  }

  /**
   * The states the component can reach: outside the completion screen a
   * phase has 1..4 seconds left and fewer than 75 cycles are done; on it,
   * all 75 are done, the clock shows 0 and the exercise is inactive.
   */
  predicate Inv(s: State) {
    if s.phase == Complete then s.timeLeft == 0 && s.cycleCount == TotalCycles && !s.isActive
    else 1 <= s.timeLeft <= PhaseSeconds && 0 <= s.cycleCount < TotalCycles
  }

  /** The safe bounds the component's state keeps: a reachable state has them. */
  lemma InvBounds(s: State)
    requires Inv(s)
    ensures 0 <= s.timeLeft <= PhaseSeconds && 0 <= s.cycleCount <= TotalCycles
  {
  }

  /** A tick above one second counts down and changes nothing else. */
  lemma CountdownTick(s: State)
    requires Ticking(s) && s.timeLeft > 1
    ensures Step(s) == s.(timeLeft := s.timeLeft - 1)
  {
  }

  /**
   * At one second or less, inhale turns to hold and hold to exhale, each
   * with a fresh 4 seconds; the cycle count and the activity are kept.
   */
  lemma PhaseChangeTick(s: State)
    requires Ticking(s) && s.timeLeft <= 1 && s.phase != Exhale
    ensures Step(s).phase == (if s.phase == Inhale then Hold else Exhale)
    ensures Step(s).timeLeft == PhaseSeconds
    ensures Step(s).cycleCount == s.cycleCount && Step(s).isActive
  {
  }

  /**
   * The end of an exhale completes a cycle: the 75th finishes the session
   * (complete, inactive, 0 seconds), any earlier one starts a new inhale.
   */
  lemma CycleEndTick(s: State)
    requires Ticking(s) && s.timeLeft <= 1 && s.phase == Exhale
    ensures Step(s).cycleCount == s.cycleCount + 1
    ensures s.cycleCount + 1 >= TotalCycles ==> Step(s) == State(Complete, 0, s.cycleCount + 1, false)
    ensures s.cycleCount + 1 < TotalCycles ==> Step(s) == State(Inhale, PhaseSeconds, s.cycleCount + 1, true)
  {
  }

  /** Without a running interval, a tick changes nothing: paused and completed sessions stay put. */
  lemma IdleTick(s: State)
    requires !Ticking(s)
    ensures Step(s) == s
  {
  }

  /** Ticks keep the reachable-state invariant. */
  lemma StepInv(s: State)
    requires Inv(s)
    ensures Inv(Step(s))
  {
  }

  /** The session is over: the completion screen is the only phase with no ticks left. */
  function Remaining(s: State): (r: int)
    requires Inv(s)
    ensures r >= 0
    ensures r == 0 <==> s.phase == Complete
  {
    var later := (TotalCycles - 1 - s.cycleCount) * 3 * PhaseSeconds;
    match s.phase
    case Inhale => later + 2 * PhaseSeconds + s.timeLeft
    case Hold => later + PhaseSeconds + s.timeLeft
    case Exhale => later + s.timeLeft
    case Complete => 0
  }

  /** Each tick of a running session brings the end exactly one second closer. */
  lemma StepRemaining(s: State)
    requires Inv(s) && Ticking(s)
    ensures Inv(Step(s)) && Remaining(Step(s)) == Remaining(s) - 1
    ensures Step(s).phase != Complete ==> Step(s).isActive
  {
  }

  /** `n` ticks in a row. */
  function Run(s: State, n: nat): State
    decreases n
  {
    if n == 0 then s else Run(Step(s), n - 1)
  }

  /**
   * An active session reaches the completion screen after exactly
   * `Remaining(s)` ticks, and not before.
   */
  lemma {:induction false} RunRemaining(s: State, n: nat)
    requires Inv(s) && (s.isActive || s.phase == Complete) && n <= Remaining(s)
    ensures Inv(Run(s, n)) && Remaining(Run(s, n)) == Remaining(s) - n
    ensures Run(s, n).phase != Complete ==> Run(s, n).isActive
    decreases n
  {
    if n > 0 {
      StepRemaining(s);
      RunRemaining(Step(s), n - 1);
    }
  }

  /**
   * A started session takes 900 ticks, 12 per cycle: it is still running
   * after 899 and complete, inactive and at 75 cycles after 900. At one
   * tick a second this is fifteen minutes.
   */
  lemma SessionLength()
    ensures Run(Started, 899).phase != Complete && Run(Started, 899).isActive
    ensures Run(Started, 900) == State(Complete, 0, TotalCycles, false)
  {
    assert Remaining(Started) == 900;
    RunRemaining(Started, 899);
    RunRemaining(Started, 900);
  }

  /** The breathing component, with the interval's callback as `Tick`. */
  class Breathing {
    var phase: Phase
    var timeLeft: int
    var cycleCount: int
    var isActive: bool

    function Current(): State
      reads this
    {
      State(phase, timeLeft, cycleCount, isActive)
    }

    ghost predicate Valid()
      reads this
    {
      Inv(Current())
    }

    /** The initial `useState` values. */
    constructor ()
      ensures Valid() && Current() == Ready
    {
      phase := Inhale;
      timeLeft := PhaseSeconds;
      cycleCount := 0;
      isActive := false;
    }

    /** One second of the interval (or nothing, when no interval is running). */
    method Tick()
      requires Valid()
      modifies this
      ensures Valid()
      ensures Current() == Step(old(Current()))
    {
      StepInv(Current());
      if !isActive || phase == Complete {
        return;
      }
      if timeLeft <= 1 {
        if phase == Inhale {
          phase := Hold;
          timeLeft := PhaseSeconds;
          return;
        } else if phase == Hold {
          phase := Exhale;
          timeLeft := PhaseSeconds;
          return;
        } else if phase == Exhale {
          var newCycleCount := cycleCount + 1;
          cycleCount := newCycleCount;
          if newCycleCount >= TotalCycles {
            phase := Complete;
            isActive := false;
            timeLeft := 0;
          } else {
            phase := Inhale;
            timeLeft := PhaseSeconds;
          }
          return;
        }
      }
      timeLeft := timeLeft - 1;
    }

    /** `startExercise`: a fresh, running session. */
    method StartExercise()
      modifies this
      ensures Valid() && Current() == Started
    {
      isActive := true;
      phase := Inhale;
      timeLeft := PhaseSeconds;
      cycleCount := 0;
    }

    /** `restartExercise`: back to the ready screen, not running. */
    method RestartExercise()
      modifies this
      ensures Valid() && Current() == Ready
    {
      isActive := false;
      phase := Inhale;
      timeLeft := PhaseSeconds;
      cycleCount := 0;
    }

    /** The Pause button: stops the interval and keeps phase, seconds and cycles. */
    method Pause()
      requires Valid()
      modifies this`isActive
      ensures Valid()
      ensures Current() == old(Current()).(isActive := false)
    {
      isActive := false;
    }
  }
}
