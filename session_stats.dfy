/** Session statistics: counts, duration sum and mean, per-type counts, the most
    recent session and the day streak, over a list of sessions that the store
    returns newest first. Timestamps are day indices: a session's `day` is its
    timestamp truncated to local midnight, counted in whole days. */
module SessionStats {
  import opened Wrappers

  datatype SessionType = Guided | Silent | BreathingSession

  datatype MeditationSession = MeditationSession(
    userId: string, kind: SessionType, duration: nat, completed: bool, day: int,
    stressLevel: Option<real>)

  datatype MeditationStats = MeditationStats(
    totalSessions: nat, totalDuration: nat, averageDuration: real, streak: nat,
    lastSessionDate: Option<int>, guided: nat, silent: nat, breathing: nat)

  /** The day of every session, in list order. */
  function Days(sessions: seq<MeditationSession>): (days: seq<int>)
    ensures |days| == |sessions|
    ensures forall i :: 0 <= i < |sessions| ==> days[i] == sessions[i].day
  {
    seq(|sessions|, i requires 0 <= i < |sessions| => sessions[i].day)
  }

  /** What the walk adds once its pointer is at day `current` and `rest` is still
      to be visited: a day exactly one before the pointer counts and moves the
      pointer, a day more than one before it ends the walk, and any other day
      (the same day, or a later one) is passed over. */
  function StreakFrom(current: int, rest: seq<int>): nat
    decreases |rest|
  {
    if rest == [] then 0
    else
      var diffDays := current - rest[0];
      if diffDays == 1 then 1 + StreakFrom(rest[0], rest[1..])
      else if diffDays > 1 then 0
      else StreakFrom(current, rest[1..])
  }

  /** The streak of a newest-first list of days: 0 when empty, otherwise the
      first day plus the run of consecutive earlier days. */
  function Streak(days: seq<int>): nat
  {
    if days == [] then 0 else 1 + StreakFrom(days[0], days[1..])
  }

  /** calculateStreak: the for-loop with its early exit. */
  method CalculateStreak(sessions: seq<MeditationSession>) returns (streak: nat)
    ensures streak == Streak(Days(sessions))
  {
    if |sessions| == 0 {
      return 0;
    }
    ghost var days := Days(sessions);
    streak := 1;
    var currentDate := sessions[0].day;
    var i := 1;
    while i < |sessions|
      invariant 1 <= i <= |sessions|
      invariant streak + StreakFrom(currentDate, days[i..]) == Streak(days)
    {
      assert days[i..][0] == sessions[i].day && days[i..][1..] == days[i + 1..];
      var diffDays := currentDate - sessions[i].day;
      if diffDays == 1 {
        streak := streak + 1;
        currentDate := sessions[i].day;
      } else if diffDays > 1 {
        break;
      }
      i := i + 1;
    }
  }

  lemma {:induction false} StreakFromAtMost(current: int, rest: seq<int>)
    ensures StreakFrom(current, rest) <= |rest|
    decreases |rest|
  {
    if rest != [] {
      StreakFromAtMost(rest[0], rest[1..]);
      StreakFromAtMost(current, rest[1..]);
    }
  }

  /** An empty list has streak 0; any other list has a streak between 1 and its length. */
  lemma StreakBounds(days: seq<int>)
    ensures days == [] ==> Streak(days) == 0
    ensures days != [] ==> 1 <= Streak(days) <= |days|
  {
    if days != [] {
      StreakFromAtMost(days[0], days[1..]);
    }
  }

  /** Days d, d-1, ..., d-k+1, newest first. */
  function ConsecutiveDays(d: int, k: nat): (days: seq<int>)
    ensures |days| == k
    decreases k
  {
    if k == 0 then [] else [d] + ConsecutiveDays(d - 1, k - 1)
  }

  lemma {:induction false} StreakFromConsecutive(d: int, k: nat)
    ensures StreakFrom(d, ConsecutiveDays(d - 1, k)) == k
    decreases k
  {
    if k > 0 {
      StreakFromConsecutive(d - 1, k - 1);
    }
  }

  /** Sessions on k consecutive days give a streak of k. */
  lemma ConsecutiveDaysStreak(d: int, k: nat)
    ensures Streak(ConsecutiveDays(d, k)) == k
  {
    if k > 0 {
      StreakFromConsecutive(d, k - 1);
    }
  }

  /** A day more than one before the pointer ends the walk: nothing after it counts. */
  lemma GapEndsWalk(current: int, next: int, tail: seq<int>)
    requires current - next > 1
    ensures StreakFrom(current, [next] + tail) == 0
  {
  }

  /** A day equal to or later than the pointer neither counts nor ends the walk. */
  lemma SameOrLaterDaySkipped(current: int, next: int, tail: seq<int>)
    requires current - next <= 0
    ensures StreakFrom(current, [next] + tail) == StreakFrom(current, tail)
  {
    assert ([next] + tail)[1..] == tail;
  }

  /** The examples: three consecutive days give 3, a gap of two days stops at 1. */
  lemma StreakExamples()
    ensures Streak([0, -1, -2]) == 3
    ensures Streak([0, -2]) == 1
    ensures Streak([0, -2, -3]) == 1
    ensures Streak([0, 0, -1]) == 2
  {
  }

  lemma {:induction false} StreakFromExtends(current: int, rest: seq<int>, more: seq<int>)
    ensures StreakFrom(current, rest) <= StreakFrom(current, rest + more)
    decreases |rest|
  {
    if rest == [] {
    } else {
      assert (rest + more)[0] == rest[0] && (rest + more)[1..] == rest[1..] + more;
      StreakFromExtends(rest[0], rest[1..], more);
      StreakFromExtends(current, rest[1..], more);
    }
  }

  /** Entries further down the list never lower a streak already counted: a
      gap stops the walk, it does not reset it to 0. */
  lemma StreakNeverResets(days: seq<int>, more: seq<int>)
    ensures Streak(days) <= Streak(days + more)
  {
    if days != [] {
      assert (days + more)[0] == days[0] && (days + more)[1..] == days[1..] + more;
      StreakFromExtends(days[0], days[1..], more);
    }
  }

  function CountType(sessions: seq<MeditationSession>, t: SessionType): (n: nat)
    ensures n <= |sessions|
  {
    if sessions == [] then 0
    else CountType(sessions[..|sessions| - 1], t) + (if sessions[|sessions| - 1].kind == t then 1 else 0)
  }

  function TotalDuration(sessions: seq<MeditationSession>): nat
  {
    if sessions == [] then 0
    else TotalDuration(sessions[..|sessions| - 1]) + sessions[|sessions| - 1].duration
  }

  /** Every session has one of exactly three types, so the per-type counts add up. */
  lemma {:induction false} TypeCountsAddUp(sessions: seq<MeditationSession>)
    ensures CountType(sessions, Guided) + CountType(sessions, Silent)
      + CountType(sessions, BreathingSession) == |sessions|
  {
    if sessions != [] {
      TypeCountsAddUp(sessions[..|sessions| - 1]);
    }
  }

  /** The statistics block of getStats (and the stats object of the reports page). */
  function GetStats(sessions: seq<MeditationSession>): (st: MeditationStats)
    ensures st.totalSessions == |sessions|
    ensures st.totalDuration == TotalDuration(sessions)
    ensures st.guided == CountType(sessions, Guided) && st.silent == CountType(sessions, Silent)
      && st.breathing == CountType(sessions, BreathingSession)
    ensures st.guided + st.silent + st.breathing == st.totalSessions
    ensures st.streak == Streak(Days(sessions))
    ensures st.averageDuration >= 0.0
    ensures sessions == [] ==> st.averageDuration == 0.0
    ensures sessions != [] ==> st.averageDuration * |sessions| as real == st.totalDuration as real
    ensures st.lastSessionDate == if sessions == [] then None else Some(sessions[0].day)
    ensures st.streak <= st.totalSessions && (sessions != [] ==> st.streak >= 1)
  {
    TypeCountsAddUp(sessions);
    StreakBounds(Days(sessions));
    var total := TotalDuration(sessions);
    MeditationStats(
      |sessions|,
      total,
      if |sessions| > 0 then total as real / |sessions| as real else 0.0,
      Streak(Days(sessions)),
      if |sessions| > 0 then Some(sessions[0].day) else None,
      CountType(sessions, Guided),
      CountType(sessions, Silent),
      CountType(sessions, BreathingSession))
  }

  /** Statistics of no sessions: all counts 0, streak 0, no last session. */
  lemma EmptyStats()
    ensures GetStats([]) == MeditationStats(0, 0, 0.0, 0, None, 0, 0, 0)
  {
  }
}
