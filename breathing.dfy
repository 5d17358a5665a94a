/** The 4-7-8 breathing exercise: inhale for 4 s, hold for 7 s, exhale for 8 s,
    with a progress bar animated over each phase. The two `setTimeout` chains
    and the `requestAnimationFrame` loop become explicit `FireTimer` and
    `AnimationFrame` calls. */
module Breathing {
  import opened Wrappers
  import opened Numeric

  /** What `getPhaseDetails` returns, without the CSS class names. */
  datatype PhaseDetails = PhaseDetails(duration: nat, text: string, instruction: string)

  const InhaleDetails := PhaseDetails(4, "Inhale", "Breathe in slowly through your nose")
  const HoldDetails := PhaseDetails(7, "Hold", "Hold your breath")
  const ExhaleDetails := PhaseDetails(8, "Exhale", "Breathe out slowly through your mouth")

  /** `getPhaseDetails`: a switch on the phase name; any other name falls back to
      the inhale details. */
  function GetPhaseDetails(phase: string): (d: PhaseDetails)
    ensures phase == "inhale" ==> d.duration == 4
    ensures phase == "hold" ==> d.duration == 7
    ensures phase == "exhale" ==> d.duration == 8
    ensures phase != "hold" && phase != "exhale" ==> d == InhaleDetails
  {
    if phase == "inhale" then InhaleDetails
    else if phase == "hold" then HoldDetails
    else if phase == "exhale" then ExhaleDetails
    else InhaleDetails
  }

  /** The durations shown for the three phases add up to a 19-second cycle. */
  lemma CycleLasts19Seconds()
    ensures GetPhaseDetails("inhale").duration + GetPhaseDetails("hold").duration
            + GetPhaseDetails("exhale").duration == 19
  {
  }

  /** The pending `setTimeout`: which phase ends when it fires. */
  datatype Timer = NoTimer | InhaleEnds | HoldEnds | ExhaleEnds

  /** The delay each timeout is scheduled with, in milliseconds. */
  function Delay(t: Timer): (ms: nat)
    ensures t == NoTimer <==> ms == 0
    ensures t != NoTimer ==> ms == 1000 * GetPhaseDetails(PhaseOf(t)).duration
  {
    match t
    case NoTimer => 0
    case InhaleEnds => 4000
    case HoldEnds => 7000
    case ExhaleEnds => 8000
  }

  /** The phase being shown while a timeout is pending. */
  function PhaseOf(t: Timer): string
    requires t != NoTimer
  {
    match t
    case InhaleEnds => "inhale"
    case HoldEnds => "hold"
    case ExhaleEnds => "exhale"
  }

  /** The timers of one cycle are exactly the three phases, 19000 ms in all. */
  lemma CycleDelays()
    ensures Delay(InhaleEnds) + Delay(HoldEnds) + Delay(ExhaleEnds) == 19000
  {
    CycleLasts19Seconds();
  }

  /** One animation frame of `startAnimation(duration)`:
      `Math.min(elapsed / duration * 100, 100)`. */
  function AnimationProgress(elapsed: real, duration: real): (p: real)
    requires duration > 0.0
    ensures elapsed >= 0.0 ==> 0.0 <= p <= 100.0
    ensures p == 100.0 <==> elapsed >= duration
    ensures elapsed < duration ==> p < 100.0 && p * duration == elapsed * 100.0
  {
    var raw := elapsed / duration * 100.0;
    assert raw * duration == elapsed * 100.0;
    Min(raw, 100.0)
  }

  /** Progress grows as time passes within a phase. */
  lemma AnimationProgressMonotone(e1: real, e2: real, duration: real)
    requires duration > 0.0 && e1 <= e2
    ensures AnimationProgress(e1, duration) <= AnimationProgress(e2, duration)
  {
    assert e1 / duration <= e2 / duration;
  }

  class Exercise {
    var isActive: bool
    var isPlaying: bool
    var currentPhase: string
    var progress: real
    var cycleCount: nat
    /** `timerRef`: the pending timeout. */
    var timer: Timer
    /** `animationRef`: the duration of the running animation, if any. */
    var animation: Option<real>

    /** A pending timeout always belongs to the phase on screen, exactly while the
        exercise is active, and progress stays a percentage. */
    ghost predicate Valid()
      reads this
    {
      (isActive <==> timer != NoTimer)
      && (timer != NoTimer ==> currentPhase == PhaseOf(timer))
      && (currentPhase == "inhale" || currentPhase == "hold" || currentPhase == "exhale")
      && 0.0 <= progress <= 100.0
      && (animation.Some? ==> animation.value > 0.0)
    }

    constructor ()
      ensures Valid()
      ensures !isActive && !isPlaying && currentPhase == "inhale" && progress == 0.0
      ensures cycleCount == 0 && timer == NoTimer && animation == None
    {
      isActive := false;
      isPlaying := false;
      currentPhase := "inhale";
      progress := 0.0;
      cycleCount := 0;
      timer := NoTimer;
      animation := None;
    }

    /** `cycle`: counts a started cycle and schedules the end of the inhale. */
    method Cycle()
      requires Valid()
      modifies this
      ensures Valid()
      ensures isActive && isPlaying && cycleCount == old(cycleCount) + 1
      ensures currentPhase == "inhale" && timer == InhaleEnds
      ensures animation == Some(Delay(InhaleEnds) as real)
      ensures progress == old(progress)
    {
      isActive := true;
      isPlaying := true;
      cycleCount := cycleCount + 1;
      currentPhase := "inhale";
      animation := Some(4000.0);
      timer := InhaleEnds;
    }

    /** The pending timeout fires. At the end of the exhale the progress is reset
        and `keepGoing` (the `isPlaying` the callback sees) decides between a new
        cycle and going inactive. */
    method FireTimer(keepGoing: bool)
      requires Valid() && timer != NoTimer
      modifies this
      ensures Valid()
      ensures old(timer) == InhaleEnds ==>
        currentPhase == "hold" && timer == HoldEnds && animation == Some(Delay(HoldEnds) as real)
        && cycleCount == old(cycleCount) && progress == old(progress)
        && isActive && isPlaying == old(isPlaying)
      ensures old(timer) == HoldEnds ==>
        currentPhase == "exhale" && timer == ExhaleEnds && animation == Some(Delay(ExhaleEnds) as real)
        && cycleCount == old(cycleCount) && progress == old(progress)
        && isActive && isPlaying == old(isPlaying)
      ensures old(timer) == ExhaleEnds && keepGoing ==>
        currentPhase == "inhale" && timer == InhaleEnds && animation == Some(Delay(InhaleEnds) as real)
        && cycleCount == old(cycleCount) + 1 && progress == 0.0 && isActive && isPlaying
      ensures old(timer) == ExhaleEnds && !keepGoing ==>
        !isActive && timer == NoTimer && progress == 0.0 && currentPhase == old(currentPhase)
        && cycleCount == old(cycleCount) && animation == old(animation) && isPlaying == old(isPlaying)
    {
      match timer
      case InhaleEnds =>
        currentPhase := "hold";
        animation := Some(7000.0);
        timer := HoldEnds;
      case HoldEnds =>
        currentPhase := "exhale";
        animation := Some(8000.0);
        timer := ExhaleEnds;
      case ExhaleEnds =>
        progress := 0.0;
        if keepGoing {
          Cycle();
        } else {
          isActive := false;
          timer := NoTimer;
        }
    }

    /** One `requestAnimationFrame` callback, `elapsed` ms after the animation
        started; the loop stops once the phase's duration has passed. */
    method AnimationFrame(elapsed: real)
      requires Valid() && animation.Some? && elapsed >= 0.0
      modifies this
      ensures Valid()
      ensures progress == AnimationProgress(elapsed, old(animation).value)
      ensures animation == (if elapsed < old(animation).value then old(animation) else None)
      ensures isActive == old(isActive) && isPlaying == old(isPlaying) && timer == old(timer)
      ensures currentPhase == old(currentPhase) && cycleCount == old(cycleCount)
    {
      var duration := animation.value;
      progress := AnimationProgress(elapsed, duration);
      if elapsed >= duration {
        animation := None;
      }
    }

    /** `stopCycle`: clears the timeout and the animation and resets the progress;
        the cycle count and the phase stay. */
    method StopCycle()
      requires Valid()
      modifies this
      ensures Valid()
      ensures !isPlaying && !isActive && progress == 0.0 && timer == NoTimer && animation == None
      ensures cycleCount == old(cycleCount) && currentPhase == old(currentPhase)
    {
      isPlaying := false;
      isActive := false;
      timer := NoTimer;
      animation := None;
      progress := 0.0;
    }

    /** `resetExercise`: `stopCycle`, then back to zero cycles and the inhale. */
    method ResetExercise()
      requires Valid()
      modifies this
      ensures Valid()
      ensures !isPlaying && !isActive && progress == 0.0 && timer == NoTimer && animation == None
      ensures cycleCount == 0 && currentPhase == "inhale"
    {
      StopCycle();
      cycleCount := 0;
      currentPhase := "inhale";
    }

    /** The details shown for the current phase. */
    function Details(): (d: PhaseDetails)
      reads this
      requires Valid()
      ensures d.duration == 4 || d.duration == 7 || d.duration == 8
    {
      GetPhaseDetails(currentPhase)
    }
  }

  /** One full cycle from a fresh exercise: the phases run inhale, hold, exhale
      with delays 4000, 7000, 8000 ms, each animation ends at 100 %, and the
      counter has counted the one cycle started. */
  method OneCycle()
  {
    var e := new Exercise();
    e.Cycle();
    assert e.currentPhase == "inhale" && e.cycleCount == 1;
    e.AnimationFrame(4000.0);
    assert e.progress == 100.0 && e.animation == None;
    e.FireTimer(true);
    assert e.currentPhase == "hold" && e.animation == Some(7000.0);
    e.FireTimer(true);
    assert e.currentPhase == "exhale" && e.animation == Some(8000.0);
    e.AnimationFrame(2000.0);
    assert e.progress == 25.0 && e.animation == Some(8000.0);
    e.FireTimer(false);
    assert !e.isActive && e.progress == 0.0 && e.cycleCount == 1 && e.currentPhase == "exhale";
    e.ResetExercise();
    assert e.cycleCount == 0 && e.currentPhase == "inhale";
  }
}
