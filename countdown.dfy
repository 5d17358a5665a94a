/** The once-per-second countdown shared by the silent and the guided session:
    the interval's updater, the `m:ss` formatter and the progress fraction. Both
    components carry identical copies of this code. */
module Countdown {
  import opened Wrappers
  import opened Digits
  import Numeric

  /** What the interval's updater reads and writes: the seconds left, whether an
      interval is armed, `isPlaying`, and how many times `onComplete` was called. */
  datatype Clock = Clock(remaining: nat, armed: bool, playing: bool, completions: nat)

  /** One firing of the interval. Without an armed interval nothing happens. With
      more than one second left it counts down; otherwise it sets 0, clears the
      interval, stops playing and calls `onComplete`. */
  function Tick(c: Clock): (d: Clock)
    ensures d.remaining <= c.remaining
    ensures d.completions <= c.completions + 1
  {
    if !c.armed then c
    else if c.remaining <= 1 then Clock(0, false, false, c.completions + 1)
    else c.(remaining := c.remaining - 1)
  }

  /** n firings in a row. */
  function Ticks(c: Clock, n: nat): Clock
    decreases n
  {
    if n == 0 then c else Ticks(Tick(c), n - 1)
  }

  /** With no armed interval, time stands still. */
  lemma {:induction false} IdleTicks(c: Clock, n: nat)
    requires !c.armed
    ensures Ticks(c, n) == c
    decreases n
  {
    if n > 0 {
      IdleTicks(c, n - 1);
    }
  }

  /** Counting down from R > 0 seconds: after k < R ticks, R - k seconds remain and
      nothing completed; from tick R on, the time is 0, the interval is cleared,
      play has stopped and `onComplete` was called exactly once. */
  lemma {:induction false} RunToCompletion(c: Clock, k: nat)
    requires c.armed && c.remaining > 0
    ensures k < c.remaining ==> Ticks(c, k) == c.(remaining := c.remaining - k)
    ensures k >= c.remaining ==> Ticks(c, k) == Clock(0, false, false, c.completions + 1)
    decreases k
  {
    if k > 0 {
      if c.remaining == 1 {
        IdleTicks(Tick(c), k - 1);
      } else {
        RunToCompletion(Tick(c), k - 1);
      }
    }
  }

  /** A session armed with 0 seconds left (after an earlier completion) calls
      `onComplete` again on its first tick. */
  lemma TickAtZeroCompletesAgain(c: Clock)
    requires c.armed && c.remaining == 0
    ensures Tick(c) == Clock(0, false, false, c.completions + 1)
  {
  }

  /** formatTime: minutes, a colon, and the seconds below 60 padded to two
      digits. Parsing the display back gives the seconds, and
      `DisplaysAreExactlyFormatted` shows that no other text parses to them. */
  function FormatTime(seconds: nat): (t: string)
    ensures ParseTime(t) == Some(seconds)
    ensures |t| >= 4 && t[|t| - 3] == ':'
  {
    var (minutes, remainingSeconds) := Numeric.SplitSixty(seconds);
    var m := NatToString(minutes);
    var ss := Pad2(remainingSeconds);
    NatToStringRoundTrip(minutes);
    ParseMinutesSeconds(m, ss);
    assert (m + ":" + ss)[|m + ":" + ss| - 3] == ':';
    m + ":" + ss
  }

  function TotalSeconds(minutes: nat, seconds: nat): nat
  {
    60 * minutes + seconds
  }

  /** Reads an "m:ss" display as formatTime prints it back into seconds: the
      minutes without leading zeros, a colon, and two digits below 60. Any
      other text is None. */
  function ParseTime(t: string): Option<nat>
  {
    var i := IndexOf(t, ':');
    if i == |t| then None
    else
      var minutes := t[..i];
      var seconds := t[i + 1..];
      if Canonical(minutes) && |seconds| == 2 && AllDigits(seconds) && StringToNat(seconds) < 60
      then Some(TotalSeconds(StringToNat(minutes), StringToNat(seconds)))
      else None
  }

  lemma ParseMinutesSeconds(m: string, ss: string)
    requires Canonical(m) && |ss| == 2 && AllDigits(ss) && StringToNat(ss) < 60
    ensures ParseTime(m + ":" + ss) == Some(TotalSeconds(StringToNat(m), StringToNat(ss)))
  {
    var t := m + [':'] + ss;
    assert m + ":" + ss == t;
    IndexAfterDigits(m, ':', ss);
    assert t[..|m|] == m;
    assert t[|m| + 1..] == ss;
  }

  /** The displays are exactly the formatted times: a text parses to `n` if
      and only if it is what formatTime prints for `n`. */
  lemma DisplaysAreExactlyFormatted(t: string, n: nat)
    ensures ParseTime(t) == Some(n) <==> t == FormatTime(n)
  {
    if ParseTime(t) == Some(n) {
      var i := IndexOf(t, ':');
      var minutes := t[..i];
      var seconds := t[i + 1..];
      var m := StringToNat(minutes);
      var ss := StringToNat(seconds);
      assert n == TotalSeconds(m, ss);
      CanonicalRoundTrip(minutes);
      Pad2Inverse(seconds);
      FormatFromParts(m, ss);
      Rejoin(t, i);
    }
  }

  /** A text is the part before index i, the character there, and the rest. */
  lemma Rejoin(t: string, i: nat)
    requires i < |t| && t[i] == ':'
    ensures t == t[..i] + ":" + t[i + 1..]
  {
  }

  /** The two digits after the colon are the seconds modulo 60, and the text
      before it is the whole minutes. */
  lemma FormatTimeParts(seconds: nat)
    ensures var t := FormatTime(seconds);
      AllDigits(t[|t| - 2..]) && StringToNat(t[|t| - 2..]) == seconds % 60
      && AllDigits(t[..|t| - 3]) && StringToNat(t[..|t| - 3]) == seconds / 60
  {
    var m := NatToString(seconds / 60);
    var ss := Pad2(seconds % 60);
    FormatFromParts(seconds / 60, seconds % 60);
    NatToStringRoundTrip(seconds / 60);
    var t := m + ":" + ss;
    assert t[|t| - 2..] == ss && t[..|t| - 3] == m;
  }

  /** The display of m minutes and s < 60 seconds. */
  lemma FormatFromParts(m: nat, s: nat)
    requires s < 60
    ensures FormatTime(TotalSeconds(m, s)) == NatToString(m) + ":" + Pad2(s)
  {
    assert Numeric.SplitSixty(TotalSeconds(m, s)) == (m, s);
  }

  /** The displays for 300, 65 and 0 seconds. */
  lemma FormatTimeExamples()
    ensures FormatTime(300) == "5:00"
    ensures FormatTime(65) == "1:05"
    ensures FormatTime(0) == "0:00"
  {
    assert Numeric.SplitSixty(300) == (5, 0) && Numeric.SplitSixty(65) == (1, 5);
    assert Numeric.SplitSixty(0) == (0, 0);
    assert NatToString(5) == "5" && NatToString(1) == "1" && NatToString(0) == "0";
    assert Pad2(0) == "00" && Pad2(5) == "05";
  }

  /** The share of the session already elapsed, as drawn by the progress bar. */
  function Progress(total: nat, remaining: nat): (p: real)
    requires total > 0 && remaining <= total
    ensures 0.0 <= p <= 1.0
    ensures p == 0.0 <==> remaining == total
    ensures p == 1.0 <==> remaining == 0
  {
    (total - remaining) as real / total as real
  }

  /** Less time left never shows less progress. */
  lemma ProgressMonotone(total: nat, r1: nat, r2: nat)
    requires total > 0 && r2 <= r1 <= total
    ensures Progress(total, r1) <= Progress(total, r2)
  {
    var t := total as real;
    Numeric.DivideThenMultiply((total - r1) as real, t);
    Numeric.DivideThenMultiply((total - r2) as real, t);
    Numeric.ScaleCompare(Progress(total, r1), t, (total - r1) as real, Progress(total, r2));
  }
}
