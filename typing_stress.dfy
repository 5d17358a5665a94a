/** The keystroke-interval detector: a window of the last ten keydown times, the
    mean gap between consecutive keys, and a stress value rising with the
    typing rate up to 10 keys per second. */
module TypingStress {
  import opened Numeric
  import opened Sequences

  const WindowSize: nat := 10

  /** Keydown times in arrival order, never decreasing (two keys may share a
      millisecond). */
  predicate NonDecreasing(times: seq<int>)
  {
    forall i, j :: 0 <= i < j < |times| ==> times[i] <= times[j]
  }

  /** The shown typing speed: `1000 / avg` keys per second, which is
      `Infinity` when the mean interval is 0. */
  datatype Speed = Finite(keysPerSecond: real) | Infinity

  /** The consecutive differences `times[i] - times[i - 1]`. */
  function Diffs(times: seq<int>): (d: seq<int>)
    ensures |d| == if |times| < 2 then 0 else |times| - 1
  {
    if |times| < 2 then []
    else Diffs(times[..|times| - 1]) + [times[|times| - 1] - times[|times| - 2]]
  }

  /** The intervals add up to the time from the first key to the last. */
  lemma {:induction false} DiffsTelescope(times: seq<int>)
    requires |times| >= 1
    ensures SumInt(Diffs(times)) == times[|times| - 1] - times[0]
  {
    if |times| >= 2 {
      var init := times[..|times| - 1];
      DiffsTelescope(init);
      var d := Diffs(times);
      assert d[..|d| - 1] == Diffs(init);
    }
  }

  /** The interval loop: pushes `times[i] - times[i - 1]` for i = 1, 2, ... */
  method Intervals(times: seq<int>) returns (intervals: seq<int>)
    ensures intervals == Diffs(times)
  {
    intervals := [];
    if |times| < 2 {
      return;
    }
    var i := 1;
    while i < |times|
      invariant 1 <= i <= |times|
      invariant intervals == Diffs(times[..i])
    {
      assert times[..i + 1][..i] == times[..i];
      intervals := intervals + [times[i] - times[i - 1]];
      i := i + 1;
    }
    assert times[..i] == times;
  }

  /** The mean interval, telescoped. */
  function MeanInterval(times: seq<int>): real
    requires |times| >= 2
  {
    (times[|times| - 1] - times[0]) as real / (|times| - 1) as real
  }

  /** `speed = 1000 / avg`, `Math.min(1, speed / 10) * 100`; a zero mean gives
      an infinite speed and so the full 100. */
  function StressOfInterval(avgInterval: real): (stress: real)
    requires avgInterval >= 0.0
    ensures 0.0 <= stress <= 100.0
    ensures stress == 100.0 <==> avgInterval <= 100.0
    ensures avgInterval > 100.0 ==> stress * avgInterval == 10000.0
  {
    if avgInterval == 0.0 then 100.0
    else
      var speed := 1000.0 / avgInterval;
      assert speed * avgInterval == 1000.0;
      Min(1.0, speed / 10.0) * 100.0
  }

  /** Slower typing never gives more stress. */
  lemma StressNonIncreasing(a1: real, a2: real)
    requires 0.0 <= a1 <= a2
    ensures StressOfInterval(a2) <= StressOfInterval(a1)
  {
    if a1 > 0.0 {
      assert 1000.0 / a2 <= 1000.0 / a1 by {
      var q1 := 1000.0 / a1;
      var q2 := 1000.0 / a2;
      assert q1 * a1 == 1000.0 && q2 * a2 == 1000.0;
    }
    }
  }

  /** In a non-decreasing window of two or more keys the mean is never
      negative, and it is 0 exactly when the first and last keys coincide. */
  lemma MeanIntervalNonNegative(times: seq<int>)
    requires |times| >= 2 && NonDecreasing(times)
    ensures MeanInterval(times) >= 0.0
    ensures MeanInterval(times) == 0.0 <==> times[0] == times[|times| - 1]
  {
    var span := (times[|times| - 1] - times[0]) as real;
    DivideThenMultiply(span, (|times| - 1) as real);
  }

  class Detector {
    var keyPressTimes: seq<int>
    /** `typingSpeed`, keys per second. */
    var typingSpeed: Speed
    /** The values passed to `onStressChange`, oldest first. */
    var emitted: seq<real>

    ghost predicate Valid()
      reads this
    {
      |keyPressTimes| <= WindowSize && NonDecreasing(keyPressTimes)
    }

    constructor ()
      ensures Valid() && keyPressTimes == [] && typingSpeed == Finite(0.0) && emitted == []
    {
      keyPressTimes := [];
      typingSpeed := Finite(0.0);
      emitted := [];
    }

    /** A keydown at time `now` and the effect on the new window. The clock
        never runs backwards, so no key is earlier than the previous one. */
    method KeyDown(now: int)
      requires Valid()
      requires |keyPressTimes| > 0 ==> now >= keyPressTimes[|keyPressTimes| - 1]
      modifies this
      ensures Valid()
      ensures keyPressTimes == TakeLast(old(keyPressTimes) + [now], WindowSize)
      ensures keyPressTimes[|keyPressTimes| - 1] == now
      ensures |keyPressTimes| < 2 ==> emitted == old(emitted) && typingSpeed == old(typingSpeed)
      ensures |keyPressTimes| >= 2 ==>
        MeanInterval(keyPressTimes) >= 0.0
        && emitted == old(emitted) + [StressOfInterval(MeanInterval(keyPressTimes))]
        && typingSpeed == SpeedOf(MeanInterval(keyPressTimes))
    {
      WindowStep(keyPressTimes, now);
      var window := TakeLast(keyPressTimes + [now], WindowSize);
      keyPressTimes := window;
      if |window| >= 2 {
        var intervals := Intervals(window);
        var avgInterval := SumInt(intervals) as real / |intervals| as real;
        MeanOfIntervals(window);
        MeanIntervalNonNegative(window);
        assert avgInterval == MeanInterval(window);
        var speed := SpeedOf(avgInterval);
        var stress := StressOfInterval(avgInterval);
        typingSpeed := speed;
        emitted := emitted + [stress];
      }
    }
  }

  /** `1000 / avg`, keys per second; infinite for a zero mean. */
  function SpeedOf(avgInterval: real): (speed: Speed)
    requires avgInterval >= 0.0
    ensures speed == Infinity <==> avgInterval == 0.0
    ensures speed.Finite? ==> speed.keysPerSecond * avgInterval == 1000.0
  {
    if avgInterval == 0.0 then Infinity else Finite(1000.0 / avgInterval)
  }

  /** A key no earlier than the last one keeps the times non-decreasing. */
  lemma AppendLater(times: seq<int>, now: int)
    requires NonDecreasing(times)
    requires |times| > 0 ==> now >= times[|times| - 1]
    ensures NonDecreasing(times + [now])
  {
    var all := times + [now];
    forall i, j | 0 <= i < j < |all| ensures all[i] <= all[j] {
      assert all[i] == times[i];
      if j < |times| {
        assert all[j] == times[j];
      } else if i < |times| - 1 {
        assert times[i] <= times[|times| - 1];
      }
    }
  }

  /** Any suffix of non-decreasing times is non-decreasing. */
  lemma SuffixNonDecreasing(times: seq<int>, k: nat)
    requires NonDecreasing(times) && k <= |times|
    ensures NonDecreasing(times[k..])
  {
    var w := times[k..];
    forall i, j | 0 <= i < j < |w| ensures w[i] <= w[j] {
      assert w[i] == times[k + i] && w[j] == times[k + j];
    }
  }

  /** Appending a key no earlier than the last and keeping the last ten keeps
      the window non-decreasing and ends it with the new key. */
  lemma WindowStep(times: seq<int>, now: int)
    requires NonDecreasing(times)
    requires |times| > 0 ==> now >= times[|times| - 1]
    ensures var w := TakeLast(times + [now], WindowSize);
      NonDecreasing(w) && |w| <= WindowSize && |w| > 0 && w[|w| - 1] == now
  {
    var all := times + [now];
    AppendLater(times, now);
    var w := TakeLast(all, WindowSize);
    SuffixNonDecreasing(all, |all| - |w|);
    assert w[|w| - 1] == all[|all| - 1];
  }

  /** The loop's intervals, averaged, give the telescoped mean. */
  lemma MeanOfIntervals(times: seq<int>)
    requires |times| >= 2
    ensures SumInt(Diffs(times)) as real / |Diffs(times)| as real == MeanInterval(times)
  {
    DiffsTelescope(times);
  }

  /** Eleven keys 100 ms apart: the window never holds more than ten, and after
      the eleventh the first has dropped out. */
  method ElevenKeys()
  {
    var d := new Detector();
    var t := 0;
    while t < 11
      invariant 0 <= t <= 11
      invariant d.Valid() && |d.keyPressTimes| == if t <= 10 then t else 10
      invariant forall i :: 0 <= i < |d.keyPressTimes| ==>
        d.keyPressTimes[i] == 100 * (t - |d.keyPressTimes| + 1 + i)
    {
      t := t + 1;
      d.KeyDown(100 * t);
    }
    assert d.keyPressTimes[0] == 200 && d.keyPressTimes[9] == 1100;
  }
}
