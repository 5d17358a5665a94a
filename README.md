# medi101 core in Dafny

This project models the logic inside the medi101 wellness app. The app is a
React front end over a Firestore store, with browser camera, microphone and
keyboard capture. Inside its components and services are small sequential
pieces of logic, and those are what the model covers:

- **Recommendation engine.** The mean of the stress indicators that are
  present picks one of three tiers. Each tier filters and truncates a fixed
  six-entry catalog. A low sentiment value then appends the calming breathing
  entries.
- **Session statistics.** Counts, the duration sum and mean, per-type counts,
  the last session and the day streak, over a newest-first session list. The
  streak is a loop with an early exit.
- **Formatters.** The `m:ss` countdown display and the `Hh Mm` duration label.
  Each has a parser, and each formatter's contract is the round trip.
- **Timer state machines.**
  - The silent and the guided meditation countdowns.
  - The 4-7-8 breathing exercise.
  - Each is a class whose fields mirror the component's React state.
  - Timers become explicit `Tick`, `FireTimer` and `AnimationFrame` calls.
  - The completion callback is a ghost counter.
- **Stress scoring arithmetic**, over `real`:
  - the weighted dashboard aggregate, its 24-hour history, and the bands;
  - the facial expression average, its decay and the display easing;
  - the two typing detectors. Only `TypingSpeedDetector` is ever rendered:
    the stress dashboard in `src/components/stress/StressDetection.tsx`
    imports `./TypingSpeedDetector` under the name `TypingStressDetector`,
    the pages import `TypingSpeedDetector`, and no file imports
    `TypingStressDetector.tsx`. So the keydown-window stress of
    `TypingStress` reaches no dashboard in the app;
  - the voice history window, the arg-max and the clamp;
  - the simpler voice analyser.

Timestamps of sessions are integer day indices, so the midnight truncation in
the streak walk is the identity. Dates elsewhere are integer milliseconds.
`Math.round(x)` is `(x + 0.5).Floor`. Square roots, `Math.pow` and the RMS
are real inputs, constrained where the model needs them. Text is a sequence
of code points; JavaScript's `.length`, which counts UTF-16 code units, is
`TypingSpeed.Utf16Length`.

Modules:

| module | file |
|---|---|
| `Wrappers` | `Option` |
| `Numeric` | rounding, min/max, left-fold sums, means, a first-maximum index |
| `Digits` | natural numbers as decimal strings |
| `Sequences` | `filter`, `slice(0, n)`, `slice(-n)` |
| `Recommendations` | the engine |
| `SessionStats` | streak and statistics |
| `Reports` | the duration label |
| `Countdown` | the shared countdown updater, `formatTime`, the progress fraction |
| `SilentMeditation`, `GuidedSession`, `Breathing` | the timer state machines |
| `StressDetection`, `FacialStress`, `TypingSpeed`, `TypingStress`, `VoiceStress`, `VoiceAnalyzer` | the detectors |

Where the code and the written description of the system disagree, the
model follows the code:

- **The aggregate is not clamped.** The dashboard's overall score is the
  plain weighted sum. The description says it is clamped to [0, 100]
  (`StressDetection.OverallExamples` shows values 80 and 120 from
  out-of-range channels).
- **Same-day duplicates are skipped.** In the streak walk they neither count
  nor end the walk. The description says they stop it
  (`SessionStats.SameOrLaterDaySkipped`, `SessionStats.StreakExamples`).
- **The breathing counter counts cycles started.** It increments when a cycle
  starts, not after a full loop. The description says it counts full loops
  (`Breathing.Exercise.Cycle`, `Breathing.OneCycle`).

## Model

| member | source | states |
|---|---|---|
| Sequences.FilterMembers | src/services/recommendations.ts:78-90 | `filter` keeps exactly the elements that satisfy the predicate |
| Sequences.Take | src/services/recommendations.ts:76-100 | `slice(0, n)` is a prefix of length min(n, length) |
| Sequences.TakeLast | src/components/stress/TypingStressDetector.tsx:17 | `slice(-n)` is the suffix of length min(n, length) |
| Recommendations.AverageStress | src/services/recommendations.ts:63-71 | the average of the defined indicators times their count is their total, and it is 0 when none is defined |
| Recommendations.DefinedLevelsTotals | src/services/recommendations.ts:63-70 | the `filter` of defined indicators has as many entries as there are defined indicators, and they add up to their total |
| Recommendations.AverageOfDefinedLevels | src/services/recommendations.ts:63-71 | the average is the mean of the filtered list when it is non-empty, and 0 when it is empty |
| Recommendations.AverageWithinRange | src/services/recommendations.ts:63-71 | indicators in [0, 100] give an average in [0, 100] |
| Recommendations.TierOf | src/services/recommendations.ts:76-86 | high tier iff avg > 70; moderate iff 40 < avg ≤ 70; low iff avg ≤ 40 |
| Recommendations.TierRecommendations | src/services/recommendations.ts:76-91 | each tier's list is a prefix of the catalog filtered by the tier's predicate, has at most its limit (2, 3 or 2) entries, and holds only catalog entries that satisfy the predicate |
| Recommendations.GetPersonalizedRecommendations | src/services/recommendations.ts:61-103 | never more than 3 entries, and all are catalog entries |
| Recommendations.FilterCons | src/services/recommendations.ts:79 | filtering tests the head, then filters the rest |
| Recommendations.FilterCatalog | src/services/recommendations.ts:16-59 | filtering the catalog tests the six entries in declaration order |
| Recommendations.TierFilters | src/services/recommendations.ts:78-90 | the three tier filters of the catalog, written out |
| Recommendations.CalmingFilter | src/services/recommendations.ts:98 | the calming filter of the catalog is [Deep Breathing] |
| Recommendations.NoIndicatorsGivesLowTier | src/services/recommendations.ts:63-91 | no indicator: average 0, low tier, and [Box Breathing, Body Scan] unless sentiment is low |
| Recommendations.HighTierGivesRelief | src/services/recommendations.ts:76-80 | avg > 70 and no low sentiment: at most 2 entries, all low intensity and ≤ 5 min, namely [Deep Breathing, Mindful Pause] |
| Recommendations.ModerateTierGivesMix | src/services/recommendations.ts:81-85 | 40 < avg ≤ 70: at most 3 entries, each medium or ≤ 10 min, namely [Deep Breathing, Box Breathing, Mindful Pause] |
| Recommendations.LowTierGivesPrevention | src/services/recommendations.ts:86-91 | avg ≤ 40: at most 2 entries, all medium and ≥ 10 min, namely [Box Breathing, Body Scan] |
| Recommendations.TierBoundaries | src/services/recommendations.ts:76-81 | the thresholds are strict: 70 is moderate and 40 is low |
| Recommendations.SentimentAdjustment | src/services/recommendations.ts:94-100 | sentiment < 0.3 appends Deep Breathing and re-truncates to 3 with no deduplication (high tier: Deep Breathing twice); any other sentiment leaves the tier list unchanged |
| Recommendations.LowSentimentOffersCalming | src/services/recommendations.ts:94-100 | with low sentiment a low-intensity breathing entry is always in the result |
| Recommendations.GetStressLevelDescription | src/services/recommendations.ts:105-113 | the high text iff level > 70, the moderate text iff 40 < level ≤ 70, the manageable text iff level ≤ 40 |
| Recommendations.DescriptionMatchesTier | src/services/recommendations.ts:105-113 | two levels get the same description iff they fall in the same tier, so the bands match the tiering |
| SessionStats.Days | src/services/meditationService.ts:128-135 | a session's day is its midnight-truncated timestamp, in list order |
| SessionStats.CalculateStreak | src/services/meditationService.ts:124-146 | the loop with its early exit returns the streak of the recursive walk |
| SessionStats.StreakFromAtMost | src/services/meditationService.ts:131-143 | the walk counts at most one per remaining entry |
| SessionStats.StreakBounds | src/services/meditationService.ts:125-131 | empty list: streak 0; otherwise 1 ≤ streak ≤ length |
| SessionStats.ConsecutiveDays | src/services/meditationService.ts:135-139 | the list d, d−1, …, d−k+1 has length k |
| SessionStats.StreakFromConsecutive | src/services/meditationService.ts:135-139 | the walk along consecutive earlier days counts each of them |
| SessionStats.ConsecutiveDaysStreak | src/services/meditationService.ts:135-139 | sessions on k consecutive days, newest first, give streak k |
| SessionStats.GapEndsWalk | src/services/meditationService.ts:140-141 | a day more than one before the pointer ends the walk; nothing after it counts |
| SessionStats.SameOrLaterDaySkipped | src/services/meditationService.ts:137-142 | a day equal to or later than the pointer neither counts nor ends the walk |
| SessionStats.StreakExamples | src/services/meditationService.ts:124-146 | [0,−1,−2] → 3, [0,−2] → 1, [0,−2,−3] → 1, [0,0,−1] → 2 |
| SessionStats.StreakFromExtends | src/pages/Reports.tsx:198-205 | more entries after the visited ones never lower the walk's count |
| SessionStats.StreakNeverResets | src/pages/Reports.tsx:187-209 | a gap stops the streak and never resets it: appending entries never lowers it |
| SessionStats.CountType | src/services/meditationService.ts:111-113 | a per-type count is at most the number of sessions |
| SessionStats.TypeCountsAddUp | src/services/meditationService.ts:110-114 | guided + silent + breathing counts = number of sessions |
| SessionStats.GetStats | src/services/meditationService.ts:102-115 | total = length; totalDuration is the sum of the durations; each type count is the number of sessions of that type, and they add up to the total; average ≥ 0, 0 when empty, and average × count = total duration; lastSessionDate is the first session's day or none; streak is the day streak of the session days, with 1 ≤ streak ≤ total when non-empty |
| SessionStats.EmptyStats | src/pages/Reports.tsx:155-168 | no sessions: every count 0, streak 0, no last session |
| Reports.ParseMinutesOnly | src/pages/Reports.tsx:214 | an "Mm" label with M a leading-zero-free numeral below 60 parses to M |
| Reports.ParseHoursAndMinutes | src/pages/Reports.tsx:214 | an "Hh Mm" label with H ≥ 1 and M < 60, both without leading zeros, parses to 60·H + M |
| Reports.FormatDuration | src/pages/Reports.tsx:211-215 | reading the label back with the strict parser (only "Mm" with M < 60, or "Hh Mm" with H ≥ 1 and M < 60, no leading zeros) gives the minutes |
| Reports.LabelsAreExactlyFormatted | src/pages/Reports.tsx:211-215 | a text parses to n iff it is the label printed for n, so the round trip fixes the label: "Hh Mm" with hours = n div 60 ≥ 1 and mins = n mod 60, else "Mm" |
| Reports.MinutesLabelIsFormatted | src/pages/Reports.tsx:214 | the only minutes-only label that parses to n is the one printed for n |
| Reports.HoursLabelIsFormatted | src/pages/Reports.tsx:214 | the only hours label that parses to n is the one printed for n |
| Reports.FormatDurationExamples | src/pages/Reports.tsx:211-215 | 75 → "1h 15m", 45 → "45m", 60 → "1h 0m" |
| Reports.AverageDurationLabel | src/pages/Reports.tsx:307 | "0m" without stats; otherwise a label that the strict parser reads as the rounded average, which by LabelsAreExactlyFormatted is the formatted rounded average |
| Digits.NatToString | src/components/meditation/SilentMeditation.tsx:90 | a number's decimal text is non-empty digits without a leading zero, one digit exactly below 10 |
| Digits.NatToStringRoundTrip | src/components/meditation/SilentMeditation.tsx:90 | reading the decimal text back gives the number |
| Digits.NatToStringInjective | src/components/meditation/SilentMeditation.tsx:90 | different numbers have different texts |
| Digits.Pad2 | src/components/meditation/SilentMeditation.tsx:90 | `padStart(2, '0')` of a number below 100 gives two digits that read back as the number |
| Digits.CanonicalRoundTrip | src/components/meditation/SilentMeditation.tsx:90 | every leading-zero-free numeral is the decimal text of the number it reads as |
| Digits.Pad2Inverse | src/components/meditation/SilentMeditation.tsx:90 | every two-digit text is the padded text of the number it reads as |
| Digits.IndexAfterDigits | src/components/meditation/SilentMeditation.tsx:90 | the separator after a run of digits is found right after them |
| Countdown.Tick | src/components/meditation/SilentMeditation.tsx:31-43 | one firing never raises the time and calls onComplete at most once |
| Countdown.IdleTicks | src/components/meditation/SilentMeditation.tsx:46-52 | with no armed interval (paused, stopped) time stands still |
| Countdown.RunToCompletion | src/components/meditation/SilentMeditation.tsx:31-43 | from R > 0 seconds: after k < R ticks R − k remain and nothing completed; from tick R on the time is 0, the interval cleared, play stopped and onComplete called exactly once |
| Countdown.TickAtZeroCompletesAgain | src/components/guided/GuidedSession.tsx:41-50 | an interval armed at 0 seconds calls onComplete again on its first tick |
| Countdown.ParseMinutesSeconds | src/components/meditation/SilentMeditation.tsx:90 | "m:ss" with m a leading-zero-free numeral and ss two digits below 60 parses to 60·m + ss |
| Countdown.FormatTime | src/components/meditation/SilentMeditation.tsx:87-91 | reading the display back with the strict parser (no leading zero in the minutes, two digits below 60 after the colon) gives the seconds, and the colon is always third from the end |
| Countdown.DisplaysAreExactlyFormatted | src/components/meditation/SilentMeditation.tsx:87-91 | a text parses to n iff it is the display printed for n, so the round trip fixes the display |
| Countdown.FormatTimeParts | src/components/meditation/SilentMeditation.tsx:88-90 | the two digits after the colon read as seconds mod 60 and the text before it as seconds div 60 |
| Countdown.FormatFromParts | src/components/meditation/SilentMeditation.tsx:88-90 | m minutes and s < 60 seconds display as m, a colon and s padded to two digits |
| Countdown.FormatTimeExamples | src/components/meditation/SilentMeditation.tsx:87-91 | 300 → "5:00", 65 → "1:05", 0 → "0:00" |
| Countdown.Progress | src/components/meditation/SilentMeditation.tsx:108-109 | the elapsed fraction lies in [0, 1]; it is 0 iff the full time remains and 1 iff none remains |
| Countdown.ProgressMonotone | src/components/meditation/SilentMeditation.tsx:155 | less time left never shows less progress |
| SilentMeditation.Offered | src/components/meditation/SilentMeditation.tsx:121-140 | Start iff not playing; Resume iff playing and paused; otherwise Pause |
| SilentMeditation.Session.constructor | src/components/meditation/SilentMeditation.tsx:10-13 | starts at duration·60 seconds, not playing, not paused, no interval |
| SilentMeditation.Session.StartSession | src/components/meditation/SilentMeditation.tsx:25-44 | playing, not paused, interval armed; time unchanged |
| SilentMeditation.Session.PauseSession | src/components/meditation/SilentMeditation.tsx:46-52 | paused with the interval cleared, still playing; time unchanged |
| SilentMeditation.Session.ResumeSession | src/components/meditation/SilentMeditation.tsx:54-74 | unpaused with the interval re-armed; time unchanged |
| SilentMeditation.Session.ResetSession | src/components/meditation/SilentMeditation.tsx:76-85 | interval cleared, not playing, not paused, time back to duration·60 |
| SilentMeditation.Session.Tick | src/components/meditation/SilentMeditation.tsx:31-73 | the new state is the countdown updater applied to the old one, keeping the class invariant |
| SilentMeditation.Session.ProgressShown | src/components/meditation/SilentMeditation.tsx:108-109 | the drawn fraction lies in [0, 1] |
| SilentMeditation.CompletesOnceOnLastTick | src/components/meditation/SilentMeditation.tsx:31-43 | from the full time, onComplete fires exactly once, on tick duration·60 |
| SilentMeditation.FiveMinuteSession | src/components/meditation/SilentMeditation.tsx:25-43 | asserts that 300 ticks of a started five-minute session complete it once at time 0 |
| GuidedSession.Offered | src/components/guided/GuidedSession.tsx:100-115 | Start iff not playing and the full time remains; Resume iff not playing otherwise; Pause iff playing |
| GuidedSession.CompletedSessionOffersResume | src/components/guided/GuidedSession.tsx:41-115 | after completion only Resume is offered, and its first tick calls onComplete again |
| GuidedSession.Session.constructor | src/components/guided/GuidedSession.tsx:10-13 | starts at duration·60 seconds, not playing, no interval |
| GuidedSession.Session.StartSession | src/components/guided/GuidedSession.tsx:35-54 | playing with the interval armed; time unchanged |
| GuidedSession.Session.PauseSession | src/components/guided/GuidedSession.tsx:56-62 | not playing, interval cleared; time unchanged |
| GuidedSession.Session.ResumeSession | src/components/guided/GuidedSession.tsx:64-81 | playing with the same updater re-armed; time unchanged |
| GuidedSession.Session.Tick | src/components/guided/GuidedSession.tsx:40-53 | the new state is the countdown updater applied to the old one, keeping the class invariant |
| Breathing.GetPhaseDetails | src/components/BreathingExercise.tsx:85-120 | inhale 4 s, hold 7 s, exhale 8 s; any other name falls back to the inhale details |
| Breathing.CycleLasts19Seconds | src/components/BreathingExercise.tsx:85-110 | the three phase durations add up to 19 s |
| Breathing.Delay | src/components/BreathingExercise.tsx:46-64 | each pending timeout's delay is 1000 × the duration shown for its phase |
| Breathing.CycleDelays | src/components/BreathingExercise.tsx:46-64 | the delays 4000, 7000, 8000 ms add up to 19000 ms |
| Breathing.AnimationProgress | src/components/BreathingExercise.tsx:24-35 | min(elapsed/duration·100, 100) lies in [0, 100] for elapsed ≥ 0, equals 100 iff elapsed ≥ duration, and is proportional to elapsed before that |
| Breathing.AnimationProgressMonotone | src/components/BreathingExercise.tsx:27-29 | progress grows with elapsed time |
| Breathing.Exercise.constructor | src/components/BreathingExercise.tsx:5-11 | inactive, not playing, phase inhale, progress 0, no cycles, no timer, no animation |
| Breathing.Exercise.Cycle | src/components/BreathingExercise.tsx:38-46 | active and playing, cycleCount + 1 (cycles started), phase inhale, 4000 ms timer and animation scheduled |
| Breathing.Exercise.FireTimer | src/components/BreathingExercise.tsx:46-64 | inhale → hold → exhale with 7000 and 8000 ms; at the exhale's end progress resets to 0, then a new cycle or inactive |
| Breathing.Exercise.AnimationFrame | src/components/BreathingExercise.tsx:26-34 | progress becomes the animation's value; the loop stops once the duration has passed |
| Breathing.Exercise.StopCycle | src/components/BreathingExercise.tsx:67-77 | not playing, inactive, progress 0, timer and animation cleared; cycleCount and phase unchanged |
| Breathing.Exercise.ResetExercise | src/components/BreathingExercise.tsx:79-83 | stopCycle plus cycleCount 0 and phase inhale |
| Breathing.Exercise.Details | src/components/BreathingExercise.tsx:85-122 | the shown phase lasts 4, 7 or 8 s |
| Breathing.OneCycle | src/components/BreathingExercise.tsx:38-83 | asserts one cycle's phase sequence and progress values, the counter at 1, and the reset to 0 |
| StressDetection.Initial | src/components/stress/StressDetection.tsx:15-20 | the first snapshot has all channels 0, so overall 0 |
| StressDetection.Overall | src/components/stress/StressDetection.tsx:42-46 | 0.4·facial + 0.3·typing + 0.3·voice lies between the smallest and the largest channel |
| StressDetection.OverallIsPercentage | src/components/stress/StressDetection.tsx:45 | channels in [0, 100] give an overall score in [0, 100] |
| StressDetection.OverallExamples | src/components/stress/StressDetection.tsx:45 | (100,0,0) → 40, (80,50,20) → 53; out-of-range channels give 80 and 120, unclamped |
| StressDetection.WithChannel | src/components/stress/StressDetection.tsx:24-28 | only the named channel and the timestamp change |
| StressDetection.WithChannelShiftsOverall | src/components/stress/StressDetection.tsx:24-45 | the overall score moves by the channel's weight × the change |
| StressDetection.KeepNewerThan | src/components/stress/StressDetection.tsx:34-35 | the filter never lengthens the history |
| StressDetection.KeepNewerThanMembers | src/components/stress/StressDetection.tsx:35 | a snapshot is kept iff it was in the history and is newer than the cutoff |
| StressDetection.KeepNewerThanAppend | src/components/stress/StressDetection.tsx:32-35 | filtering old + [new] is the filtered old history, plus the new snapshot iff it is newer than the cutoff |
| StressDetection.KeepNewerThanIdempotent | src/components/stress/StressDetection.tsx:35 | filtering twice with one cutoff equals filtering once |
| StressDetection.BandOf | src/components/stress/StressDetection.tsx:48-60 | bands are < 30, [30, 60), [60, 80) and ≥ 80 |
| StressDetection.BandMonotone | src/components/stress/StressDetection.tsx:48-53 | a higher value never falls in a lower band |
| StressDetection.GetStressLevel | src/components/stress/StressDetection.tsx:48-53 | Low, Medium, High, Very High exactly on the four bands |
| StressDetection.GetStressColor | src/components/stress/StressDetection.tsx:55-60 | green, yellow, orange, red exactly on the same four bands |
| StressDetection.LevelAndColorAgree | src/components/stress/StressDetection.tsx:48-60 | two values share a level label iff they share a colour |
| StressDetection.HistoryRows | src/components/stress/StressDetection.tsx:121-131 | the panel shows the last min(5, n) snapshots in order, each scored with the same weights as the current value |
| StressDetection.Dashboard.constructor | src/components/stress/StressDetection.tsx:14-20 | empty history and the all-zero snapshot |
| StressDetection.Dashboard.HandleStressChange | src/components/stress/StressDetection.tsx:22-40 | the snapshot changes only the named channel and the timestamp; the history becomes old + [snapshot] filtered to the last 24 hours |
| StressDetection.Dashboard.CurrentOverall | src/components/stress/StressDetection.tsx:42-46 | the shown score of in-range channels lies in [0, 100] |
| StressDetection.ChangeKeepsRecentHistory | src/components/stress/StressDetection.tsx:22-39 | after a change read within a day of its timestamp, the history ends with the new snapshot, keeps the filtered old history before it, and holds only snapshots newer than now − 24 h |
| FacialStress.WeightOf | src/components/stress/FacialStressDetector.tsx:223-230 | weights lie in [0, 100]: angry 100 … happy 0; neutral has none |
| FacialStress.CalculateStressScore | src/components/stress/FacialStressDetector.tsx:222-243 | the forEach loop computes round(Σ w·p / Σ p) over the weighted expressions, or 0 when Σ p ≤ 0 |
| FacialStress.WeightedSumBounds | src/components/stress/FacialStressDetector.tsx:235-240 | with non-negative probabilities 0 ≤ Σ w·p ≤ 100·Σ p |
| FacialStress.ScoreIsPercentage | src/components/stress/FacialStressDetector.tsx:222-243 | with non-negative probabilities the score lies in [0, 100] |
| FacialStress.HappyContributesNothing | src/components/stress/FacialStressDetector.tsx:229-237 | happy expressions add nothing to the weighted sum |
| FacialStress.AllHappyScoresZero | src/components/stress/FacialStressDetector.tsx:229-242 | an all-happy face scores 0 |
| FacialStress.AngryIsFullWeight | src/components/stress/FacialStressDetector.tsx:224-238 | angry expressions weigh 100 times their probability |
| FacialStress.AllAngryScoresHundred | src/components/stress/FacialStressDetector.tsx:224-242 | an all-angry face with some probability scores 100 |
| FacialStress.SumsOfConcat | src/components/stress/FacialStressDetector.tsx:235-240 | both totals of a concatenation are the sums of the parts' totals |
| FacialStress.UnknownExpressionIgnored | src/components/stress/FacialStressDetector.tsx:235-240 | an expression outside the table, anywhere and with any probability, leaves the score unchanged |
| FacialStress.Decay | src/components/stress/FacialStressDetector.tsx:200-201 | max(0, prev − 2): prev − 2 from 2 up, else 0, never negative |
| FacialStress.DecaysReachZero | src/components/stress/FacialStressDetector.tsx:199-201 | without a face, a level L reaches 0 after ⌈L/2⌉ updates |
| FacialStress.EaseStep | src/components/stress/FacialStressDetector.tsx:25-29 | snaps to the target when |diff| < 1; otherwise moves a tenth of the way |
| FacialStress.EaseStepApproaches | src/components/stress/FacialStressDetector.tsx:25-29 | each step stays between prev and target, closes ≥ 10 % of the distance, and is strictly closer unless already there |
| FacialStress.FaceBandOf | src/components/stress/FacialStressDetector.tsx:245-255 | bands are < 30, [30, 60) and ≥ 60 |
| FacialStress.GetStressColor | src/components/stress/FacialStressDetector.tsx:245-249 | green, yellow, red exactly on the three bands |
| FacialStress.GetStressMessage | src/components/stress/FacialStressDetector.tsx:251-255 | Low, Moderate, High Stress exactly on the same bands |
| FacialStress.ColorAndMessageAgree | src/components/stress/FacialStressDetector.tsx:245-255 | two levels share a colour iff they share a message |
| FacialStress.Detector.constructor | src/components/stress/FacialStressDetector.tsx:10-19 | level 0, display 0, last update 0, nothing emitted |
| FacialStress.Detector.DetectionTick | src/components/stress/FacialStressDetector.tsx:191-205 | within 1000 ms of the last update nothing changes; otherwise the level becomes the face's score or the decayed level, is emitted, and the update time becomes now; the level stays in [0, 100] |
| FacialStress.Detector.EaseDisplay | src/components/stress/FacialStressDetector.tsx:24-33 | the display takes one easing step towards the stored level and stays in [0, 100] |
| TypingSpeed.Utf16Length | src/components/stress/TypingSpeedDetector.tsx:51-54 | `.length` counts UTF-16 code units: between the number of code points and twice it |
| TypingSpeed.BmpLength | src/components/stress/TypingSpeedDetector.tsx:51-54 | text without astral characters has UTF-16 length equal to its number of code points |
| TypingSpeed.AstralCharacterCountsTwice | src/components/stress/TypingSpeedDetector.tsx:51-54 | an emoji is two code units: "\u{1F600}" has length 2 and "a\u{1F600}" length 3 |
| TypingSpeed.CalculateErrors | src/components/stress/TypingSpeedDetector.tsx:51-54 | the errors are the difference of the UTF-16 lengths; 0 iff those lengths are equal |
| TypingSpeed.ErrorsSymmetric | src/components/stress/TypingSpeedDetector.tsx:51-54 | the error count is symmetric |
| TypingSpeed.CalculateStressScore | src/components/stress/TypingSpeedDetector.tsx:56-64 | in [50, 100] for speed ≥ 0; 100 when speed ≥ 10 and errors ≥ 5; 50 when both are 0 |
| TypingSpeed.ScoreMonotone | src/components/stress/TypingSpeedDetector.tsx:59-63 | non-decreasing in speed and in errors |
| TypingSpeed.Speed | src/components/stress/TypingSpeedDetector.tsx:32-33 | speed × elapsed ms = 1000 × characters (the UTF-16 length of the text), and speed ≥ 0 |
| TypingSpeed.Detector.constructor | src/components/stress/TypingSpeedDetector.tsx:14-21 | empty text, zero metrics, no start time, empty previous text |
| TypingSpeed.Detector.CalculateMetrics | src/components/stress/TypingSpeedDetector.tsx:29-49 | no start time: nothing changes and nothing is emitted; otherwise the metrics are speed, errors and score, the score is emitted, and the previous text becomes the current text |
| TypingSpeed.Detector.OnChange | src/components/stress/TypingSpeedDetector.tsx:23-75 | the metrics run before the effect records the first start time, so the first keystroke emits nothing |
| TypingSpeed.FirstTwoKeystrokes | src/components/stress/TypingSpeedDetector.tsx:23-49 | asserts that the first change only starts the clock and the second counts the whole text as errors |
| TypingStress.Diffs | src/components/stress/TypingStressDetector.tsx:27-30 | n − 1 intervals for n ≥ 2 timestamps, none otherwise |
| TypingStress.DiffsTelescope | src/components/stress/TypingStressDetector.tsx:27-31 | the intervals add up to last − first |
| TypingStress.Intervals | src/components/stress/TypingStressDetector.tsx:27-30 | the loop pushes exactly the consecutive differences |
| TypingStress.MeanOfIntervals | src/components/stress/TypingStressDetector.tsx:31 | the mean interval telescopes to (last − first)/(n − 1) |
| TypingStress.MeanIntervalNonNegative | src/components/stress/TypingStressDetector.tsx:31-32 | non-decreasing timestamps give a mean interval ≥ 0, which is 0 iff the first and last keys share a millisecond |
| TypingStress.SpeedOf | src/components/stress/TypingStressDetector.tsx:32 | `Infinity` iff the mean interval is 0; otherwise speed × mean interval = 1000 |
| TypingStress.StressOfInterval | src/components/stress/TypingStressDetector.tsx:32-38 | stress in [0, 100]; 100 iff avg ≤ 100 ms (including the infinite speed of avg = 0); stress × avg = 10000 otherwise |
| TypingStress.StressNonIncreasing | src/components/stress/TypingStressDetector.tsx:36-38 | slower typing never gives more stress |
| TypingStress.WindowStep | src/components/stress/TypingStressDetector.tsx:14-18 | the new window holds at most 10 keys, stays non-decreasing, and ends with the new key |
| TypingStress.Detector.constructor | src/components/stress/TypingStressDetector.tsx:8-9 | empty window, speed 0 keys/s |
| TypingStress.Detector.KeyDown | src/components/stress/TypingStressDetector.tsx:12-40 | the window becomes the last 10 of old + [now]; with fewer than 2 keys nothing is emitted; otherwise the mean interval is ≥ 0 and the emitted stress and shown speed follow from it (100 and `Infinity` for a zero mean) |
| TypingStress.ElevenKeys | src/components/stress/TypingStressDetector.tsx:14-18 | asserts that after eleven keys the window holds keys 2 to 11 |
| VoiceStress.CalculateDominantFrequency | src/components/stress/VoiceStressDetector.tsx:129-141 | the scan returns the first index of the maximum bin, 0 for an empty spectrum |
| VoiceStress.SquaredDeviations | src/components/stress/VoiceStressDetector.tsx:164 | one non-negative squared deviation per value |
| VoiceStress.Variance | src/components/stress/VoiceStressDetector.tsx:163-164 | the population variance is non-negative |
| VoiceStress.CalculateVariation | src/components/stress/VoiceStressDetector.tsx:161-166 | 0 for fewer than 2 values; otherwise a non-negative value whose square is the variance |
| VoiceStress.ConstantValuesNoVariance | src/components/stress/VoiceStressDetector.tsx:161-166 | constant values have that value as mean and variance 0 |
| VoiceStress.Clamp | src/components/stress/VoiceStressDetector.tsx:158 | `min(max(x, 0), 100)` lies in [0, 100] and is x when x is already there |
| VoiceStress.CalculateStressLevel | src/components/stress/VoiceStressDetector.tsx:143-159 | 0 with fewer than 2 samples in either history; otherwise round(0.7·volumeStress + 0.3·frequencyStress) clamped to [0, 100] |
| VoiceStress.LevelMonotone | src/components/stress/VoiceStressDetector.tsx:157-158 | round-then-clamp is monotone in the combination |
| VoiceStress.SteadyVoice | src/components/stress/VoiceStressDetector.tsx:143-159 | a steady voice at linear volume v scores clamp(round(42·v)) |
| VoiceStress.Slide | src/components/stress/VoiceStressDetector.tsx:103-110 | push then drop the oldest above 20: at most 20 samples, newest last |
| VoiceStress.Detector.constructor | src/components/stress/VoiceStressDetector.tsx:8-16 | not recording, both histories empty, level 0 |
| VoiceStress.Detector.AnalyzeFrame | src/components/stress/VoiceStressDetector.tsx:85-120 | both histories slide by one sample and keep equal length ≤ 20; the level is the stress of the new histories and is emitted |
| VoiceStress.Detector.StartRecording | src/components/stress/VoiceStressDetector.tsx:53-54 | recording; histories unchanged |
| VoiceStress.Detector.StopRecording | src/components/stress/VoiceStressDetector.tsx:63-83 | both histories emptied, not recording |
| VoiceAnalyzer.CalculateVolume | src/components/stress/VoiceAnalyzer.tsx:77-83 | the volume is at most 100, non-negative for a non-negative RMS, and RMS·100 up to RMS 1 |
| VoiceAnalyzer.PitchOf | src/components/stress/VoiceAnalyzer.tsx:85-104 | the pitch is 0 or above 0.1 Hz; 0 for an empty buffer or a maximum at index 0; for a non-empty buffer the pitch is positive iff index × 44100 > 0.1 × size, and then pitch × size = index × 44100 |
| VoiceAnalyzer.CalculatePitch | src/components/stress/VoiceAnalyzer.tsx:85-104 | the scan from index −1 returns the pitch of the first maximal sample |
| VoiceAnalyzer.CalculateStressScore | src/components/stress/VoiceAnalyzer.tsx:106-113 | at most 100; at least 50 for volume ≥ 0; a non-positive pitch contributes nothing |
| VoiceAnalyzer.ScoreMonotone | src/components/stress/VoiceAnalyzer.tsx:109-112 | non-decreasing in volume and in pitch |
| VoiceAnalyzer.Analyzer.constructor | src/components/stress/VoiceAnalyzer.tsx:15-19 | zero metrics, nothing emitted |
| VoiceAnalyzer.Analyzer.AnalyzeFrame | src/components/stress/VoiceAnalyzer.tsx:47-59 | the metrics are the capped volume, the pitch and their score in [50, 100], and the score is emitted |
| Numeric.SplitSixty | src/pages/Reports.tsx:212-213 | the quotient and remainder by 60: 60 · first + second = n and second < 60 |
| Numeric.Round | src/components/stress/FacialStressDetector.tsx:242 | `Math.round` is within one half of its argument, halves rounded up |
| Numeric.FirstMaxIndex | src/components/stress/VoiceStressDetector.tsx:129-141 | the index of the first maximal element: every element is ≤ it and every earlier one is < it |

## Left out

- Firestore, authentication and the random demo data: `saveSession`, `getRecentSessions`, the snapshot listeners and the query of `getStats`. The session list is the model's input, already filtered and ordered newest first.
- JavaScript `Date` calendar arithmetic (the week/month/year window start and the midnight truncation). It depends on time zone and daylight saving; sessions carry integer day indices instead.
- `setInterval`, `setTimeout` and `requestAnimationFrame` scheduling. These are explicit `Tick`, `FireTimer`, `AnimationFrame`, `DetectionTick`, `EaseDisplay`, `KeyDown` and `AnalyzeFrame` calls. `Date.now()` and `performance.now()` readings are parameters.
- Breathing overlap: a phase's animation loop is not cancelled when the next phase starts, so two loops may briefly write `progress`. The model keeps one animation at a time.
- Breathing.Exercise.FireTimer: the `isPlaying` the exhale callback reads is a stale closure value. It is the parameter `keepGoing`, so the model does not say that in the running app the exercise goes inactive after one cycle.
- FacialStress.Detector.DetectionTick: with no face, the callback is given `max(0, stressLevel - 2)` from a stale closure. The model emits the new stored level. The `isStreaming` check that continues the loop is not modelled.
- VoiceAnalyzer.Analyzer.AnalyzeFrame: `analyzeAudio` returns at once when its closure sees `isRecording` as false. The model analyses every frame it is given. Recording start and stop are not modelled for this component.
- Camera, microphone and face detection, as well as the Web Audio reads, speech synthesis, and model loading and downloads.
- VoiceStress.CalculateVariation, VoiceStress.CalculateStressLevel and VoiceStress.Detector.AnalyzeFrame: `Math.sqrt` results are inputs constrained by `root ≥ 0` and `root² = variance`. The dB-to-linear `Math.pow` is folded into the `linearVolume` input.
- VoiceAnalyzer.CalculateVolume: the RMS (a square root) is an input.
- IEEE floating point (rounding, NaN, infinities) is not modelled, apart from the infinite typing speed of `TypingStress.Speed`. In particular, `-Infinity` spectrum bins are not modelled, nor is the `-Infinity` pitch of an empty buffer, which the model writes directly as 0.
- TypingSpeed.Detector.CalculateMetrics: requires `now` after the start time, excluding the division by zero of a change in the start millisecond.
- TypingStress.Detector.KeyDown: requires each key no earlier than the previous one (the clock never runs backwards). A clock step backwards, which could make the mean interval negative, is not modelled. The infinite speed of a zero mean interval is the `Infinity` case of `Speed`.
- VoiceStress.CalculateStressLevel: requires a positive mean frequency, excluding the division by zero of an all-zero bin history.
- SilentMeditation.Session.ProgressShown: requires duration > 0. A zero duration divides by zero in the component.
- The start-time and pause-time refs of the silent session are written but never read by the countdown.
- The voice detector's own colour and message bands (< 30, < 60) are not modelled. They follow the same pattern as `FacialStress.GetStressColor` / `GetStressMessage`.
- UI and glue files: `src/pages/*.tsx` other than Reports, `src/App.tsx`, `Dashboard.tsx`, `Meditation.tsx` and the placeholder `src/components/StressDetection.tsx`. The type declaration files describe third-party libraries only.
- SessionStats.GetStats: `streak` is given through the recursive specification `Streak`, which `CalculateStreak` is proved equal to, since a function cannot call the loop method.
