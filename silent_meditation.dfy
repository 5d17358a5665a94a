/** The silent meditation timer: a countdown from `duration * 60` seconds with
    start, pause, resume and reset buttons. */
module SilentMeditation {
  import opened Countdown

  /** The button the component renders in the first slot. */
  datatype Control = StartButton | ResumeButton | PauseButton

  /** Which control is shown: Start while not playing, Resume while paused, else Pause. */
  function Offered(isPlaying: bool, isPaused: bool): (c: Control)
    ensures c == StartButton <==> !isPlaying
    ensures c == ResumeButton <==> isPlaying && isPaused
  {
    if !isPlaying then StartButton else if isPaused then ResumeButton else PauseButton
  }

  class Session {
    /** The `duration` prop, in minutes. */
    const duration: nat
    var timeRemaining: nat
    var isPlaying: bool
    var isPaused: bool
    /** Whether `timerRef` holds a running interval. */
    var timerArmed: bool
    /** How many times `onComplete` has been called. */
    ghost var completions: nat

    /** The interval runs exactly while playing and not paused, only a playing
        session can be paused, and the time never exceeds the full duration. */
    ghost predicate Valid()
      reads this
    {
      && timeRemaining <= duration * 60
      && (isPaused ==> isPlaying)
      && (timerArmed <==> isPlaying && !isPaused)
    }

    /** The part of the state the interval's updater works on. */
    ghost function ClockOf(): Clock
      reads this
    {
      Clock(timeRemaining, timerArmed, isPlaying, completions)
    }

    constructor (duration: nat)
      ensures Valid()
      ensures this.duration == duration && timeRemaining == duration * 60
      ensures !isPlaying && !isPaused && !timerArmed && completions == 0
    {
      this.duration := duration;
      timeRemaining := duration * 60;
      isPlaying := false;
      isPaused := false;
      timerArmed := false;
      completions := 0;
    }

    function Control(): Control
      reads this
    {
      Offered(isPlaying, isPaused)
    }

    /** startSession, reachable from the Start button. */
    method StartSession()
      requires Valid() && Control() == StartButton
      modifies this
      ensures Valid()
      ensures isPlaying && !isPaused && timerArmed
      ensures timeRemaining == old(timeRemaining) && completions == old(completions)
    {
      isPlaying := true;
      isPaused := false;
      timerArmed := true;
    }

    /** pauseSession: clears the interval so that no tick runs while paused;
        `isPlaying` stays true. */
    method PauseSession()
      requires Valid() && Control() == PauseButton
      modifies this
      ensures Valid()
      ensures isPaused && !timerArmed && isPlaying
      ensures timeRemaining == old(timeRemaining) && completions == old(completions)
    {
      isPaused := true;
      timerArmed := false;
    }

    /** resumeSession: re-arms the interval without touching the time. */
    method ResumeSession()
      requires Valid() && Control() == ResumeButton
      modifies this
      ensures Valid()
      ensures !isPaused && timerArmed && isPlaying
      ensures timeRemaining == old(timeRemaining) && completions == old(completions)
    {
      isPaused := false;
      timerArmed := true;
    }

    /** resetSession: clears the interval, stops, and restores the full time. */
    method ResetSession()
      requires Valid()
      modifies this
      ensures Valid()
      ensures !timerArmed && !isPlaying && !isPaused
      ensures timeRemaining == duration * 60 && completions == old(completions)
    {
      timerArmed := false;
      isPlaying := false;
      isPaused := false;
      timeRemaining := duration * 60;
    }

    /** One second passing: the interval fires if it is armed. */
    method Tick()
      requires Valid()
      modifies this
      ensures Valid()
      ensures ClockOf() == Countdown.Tick(old(ClockOf()))
      ensures isPaused == old(isPaused)
      ensures timeRemaining <= old(timeRemaining)
    {
      if timerArmed {
        if timeRemaining <= 1 {
          timerArmed := false;
          isPlaying := false;
          completions := completions + 1;
          timeRemaining := 0;
        } else {
          timeRemaining := timeRemaining - 1;
        }
      }
    }

    /** The fraction drawn by the progress bar. */
    function ProgressShown(): (p: real)
      reads this
      requires Valid() && duration > 0
      ensures 0.0 <= p <= 1.0
    {
      Progress(duration * 60, timeRemaining)
    }
  }

  /** Starting from the full time, a session that is never paused calls
      `onComplete` once, on tick `duration * 60`, and no tick before or after
      that calls it again. */
  lemma CompletesOnceOnLastTick(duration: nat, k: nat)
    requires duration > 0
    ensures var c := Clock(duration * 60, true, true, 0);
      && (k < duration * 60 ==> Ticks(c, k).completions == 0 && Ticks(c, k).remaining == duration * 60 - k)
      && (k >= duration * 60 ==> Ticks(c, k).completions == 1 && Ticks(c, k).remaining == 0 && !Ticks(c, k).playing)
  {
    RunToCompletion(Clock(duration * 60, true, true, 0), k);
  }

  /** A client run: five minutes, started, 300 ticks: completed once, time 0. */
  method FiveMinuteSession()
  {
    var s := new Session(5);
    s.StartSession();
    var i := 0;
    while i < 300
      invariant 0 <= i <= 300
      invariant s.Valid() && s.duration == 5 && !s.isPaused
      invariant s.ClockOf() == Ticks(Clock(300, true, true, 0), i)
      modifies s
    {
      RunToCompletion(Clock(300, true, true, 0), i);
      RunToCompletion(Clock(300, true, true, 0), i + 1);
      s.Tick();
      i := i + 1;
    }
    RunToCompletion(Clock(300, true, true, 0), 300);
    assert s.completions == 1 && s.timeRemaining == 0 && !s.isPlaying;
  }
}
