/** The guided session timer: a countdown from `recommendation.duration * 60`
    seconds with start, pause and resume, and no reset. */
module GuidedSession {
  import opened Countdown

  datatype Control = StartButton | ResumeButton | PauseButton

  /** Start only when not playing and the whole time is left; Resume when not
      playing otherwise; Pause while playing. */
  function Offered(isPlaying: bool, timeRemaining: nat, fullTime: nat): (c: Control)
    ensures c == StartButton <==> !isPlaying && timeRemaining == fullTime
    ensures c == ResumeButton <==> !isPlaying && timeRemaining != fullTime
    ensures c == PauseButton <==> isPlaying
  {
    if !isPlaying then (if timeRemaining == fullTime then StartButton else ResumeButton)
    else PauseButton
  }

  /** After a session of positive length completes, only Resume is offered, and
      the first tick after resuming calls `onComplete` a second time. */
  lemma CompletedSessionOffersResume(fullTime: nat, completions: nat)
    requires fullTime > 0
    ensures Offered(false, 0, fullTime) == ResumeButton
    ensures Tick(Clock(0, true, true, completions)).completions == completions + 1
  {
  }

  class Session {
    /** `recommendation.duration`, in minutes. */
    const duration: nat
    var timeRemaining: nat
    var isPlaying: bool
    /** Whether `timerRef` holds a running interval. */
    var timerArmed: bool
    /** How many times `onComplete` has been called. */
    ghost var completions: nat

    ghost predicate Valid()
      reads this
    {
      timeRemaining <= duration * 60 && (timerArmed <==> isPlaying)
    }

    ghost function ClockOf(): Clock
      reads this
    {
      Clock(timeRemaining, timerArmed, isPlaying, completions)
    }

    constructor (duration: nat)
      ensures Valid()
      ensures this.duration == duration && timeRemaining == duration * 60
      ensures !isPlaying && !timerArmed && completions == 0
    {
      this.duration := duration;
      timeRemaining := duration * 60;
      isPlaying := false;
      timerArmed := false;
      completions := 0;
    }

    function Control(): Control
      reads this
    {
      Offered(isPlaying, timeRemaining, duration * 60)
    }

    /** startSession (speech left out). */
    method StartSession()
      requires Valid() && Control() == StartButton
      modifies this
      ensures Valid() && isPlaying && timerArmed
      ensures timeRemaining == old(timeRemaining) && completions == old(completions)
    {
      isPlaying := true;
      timerArmed := true;
    }

    /** pauseSession: stops playing and clears the interval; the time stays. */
    method PauseSession()
      requires Valid() && Control() == PauseButton
      modifies this
      ensures Valid() && !isPlaying && !timerArmed
      ensures timeRemaining == old(timeRemaining) && completions == old(completions)
    {
      isPlaying := false;
      timerArmed := false;
    }

    /** resumeSession: plays again and re-arms the same updater; the time stays. */
    method ResumeSession()
      requires Valid() && Control() == ResumeButton
      modifies this
      ensures Valid() && isPlaying && timerArmed
      ensures timeRemaining == old(timeRemaining) && completions == old(completions)
    {
      isPlaying := true;
      timerArmed := true;
    }

    /** One second passing: the interval fires if it is armed. */
    method Tick()
      requires Valid()
      modifies this
      ensures Valid()
      ensures ClockOf() == Countdown.Tick(old(ClockOf()))
    {
      if timerArmed {
        if timeRemaining <= 1 {
          timerArmed := false;
          isPlaying := false;
          completions := completions + 1;
          timeRemaining := 0;
        } else {
          timeRemaining := timeRemaining - 1;
        }
      }
    }
  }
}
