/** The typing-speed detector: characters per second since the first keystroke,
    a length-difference error count, and a linear score on both. */
module TypingSpeed {
  import opened Wrappers
  import opened Numeric

  datatype TypingMetrics = TypingMetrics(speed: real, errors: nat, stressScore: real)

  /** A string's JavaScript `length`: UTF-16 code units, two for a character
      outside the Basic Multilingual Plane. */
  function Utf16Length(s: string): (n: nat)
    ensures |s| <= n <= 2 * |s|
  {
    if s == [] then 0
    else Utf16Length(s[..|s| - 1]) + (if s[|s| - 1] as int > 0xFFFF then 2 else 1)
  }

  /** Text made of Basic Multilingual Plane characters has one unit per character. */
  lemma {:induction false} BmpLength(s: string)
    requires forall i :: 0 <= i < |s| ==> s[i] as int <= 0xFFFF
    ensures Utf16Length(s) == |s|
  {
    if s != [] {
      BmpLength(s[..|s| - 1]);
    }
  }

  /** An emoji counts twice. */
  lemma AstralCharacterCountsTwice()
    ensures Utf16Length("\U{1F600}") == 2
    ensures Utf16Length("a\U{1F600}") == 3
  {
    assert "a\U{1F600}"[..1] == "a";
  }

  /** `calculateErrors`: how far the text length moved, in UTF-16 units. */
  function CalculateErrors(previous: string, current: string): (errors: nat)
    ensures Utf16Length(previous) + errors == Utf16Length(current)
      || Utf16Length(current) + errors == Utf16Length(previous)
    ensures errors == 0 <==> Utf16Length(previous) == Utf16Length(current)
  {
    var p := Utf16Length(previous);
    var c := Utf16Length(current);
    if p >= c then p - c else c - p
  }

  lemma ErrorsSymmetric(a: string, b: string)
    ensures CalculateErrors(a, b) == CalculateErrors(b, a)
  {
  }

  /** `calculateStressScore`: a base of 50, up to 20 more for speed (full at 10
      characters per second) and up to 30 more for errors (full at 5). */
  function CalculateStressScore(speed: real, errors: nat): (score: real)
    ensures speed >= 0.0 ==> 50.0 <= score <= 100.0
    ensures speed >= 10.0 && errors >= 5 ==> score == 100.0
    ensures speed == 0.0 && errors == 0 ==> score == 50.0
  {
    var speedFactor := Min(1.0, speed / 10.0);
    var errorFactor := Min(1.0, errors as real / 5.0);
    Min(100.0, 50.0 + speedFactor * 20.0 + errorFactor * 30.0)
  }

  /** Typing faster or changing the length more never lowers the score. */
  lemma ScoreMonotone(s1: real, e1: nat, s2: real, e2: nat)
    requires s1 <= s2 && e1 <= e2
    ensures CalculateStressScore(s1, e1) <= CalculateStressScore(s2, e2)
  {
    assert s1 / 10.0 <= s2 / 10.0;
    assert e1 as real / 5.0 <= e2 as real / 5.0;
  }

  /** Characters per second: `length / ((now - start) / 1000)`. */
  function Speed(length: nat, start: int, now: int): (speed: real)
    requires now > start
    ensures speed >= 0.0
    ensures speed * (now - start) as real == 1000.0 * length as real
  {
    var elapsed := (now - start) as real / 1000.0;
    var s := length as real / elapsed;
    assert s * elapsed == length as real;
    s
  }

  class Detector {
    var text: string
    var metrics: TypingMetrics
    /** `startTimeRef`, set by the effect after the first non-empty text. */
    var startTime: Option<int>
    var previousText: string
    /** The values passed to `onStressChange`, oldest first. */
    var emitted: seq<real>

    constructor ()
      ensures text == "" && metrics == TypingMetrics(0.0, 0, 0.0) && startTime == None
      ensures previousText == "" && emitted == []
    {
      text := "";
      metrics := TypingMetrics(0.0, 0, 0.0);
      startTime := None;
      previousText := "";
      emitted := [];
    }

    /** `calculateMetrics(currentText)` at time `now`: nothing at all happens
        before a start time exists. */
    method CalculateMetrics(currentText: string, now: int)
      requires startTime.Some? ==> now > startTime.value
      modifies this
      ensures startTime == old(startTime) && text == old(text)
      ensures old(startTime).None? ==>
        metrics == old(metrics) && previousText == old(previousText) && emitted == old(emitted)
      ensures old(startTime).Some? ==>
        metrics.speed == Speed(Utf16Length(currentText), old(startTime).value, now)
        && metrics.errors == CalculateErrors(old(previousText), currentText)
        && metrics.stressScore == CalculateStressScore(metrics.speed, metrics.errors)
        && emitted == old(emitted) + [metrics.stressScore] && previousText == currentText
    {
      if startTime.None? {
        return;
      }
      var speed := Speed(Utf16Length(currentText), startTime.value, now);
      var errors := CalculateErrors(previousText, currentText);
      var stressScore := CalculateStressScore(speed, errors);
      metrics := TypingMetrics(speed, errors, stressScore);
      emitted := emitted + [stressScore];
      previousText := currentText;
    }

    /** The textarea's onChange at time `now`, followed by the effect on `text`
        that records the start time at `effectTime`. */
    method OnChange(value: string, now: int, effectTime: int)
      requires startTime.Some? ==> now > startTime.value
      modifies this
      ensures text == value
      ensures startTime == (if old(startTime).None? && |value| > 0 then Some(effectTime) else old(startTime))
      ensures old(startTime).None? ==>
        metrics == old(metrics) && previousText == old(previousText) && emitted == old(emitted)
      ensures old(startTime).Some? ==>
        metrics.speed == Speed(Utf16Length(value), old(startTime).value, now)
        && metrics.errors == CalculateErrors(old(previousText), value)
        && metrics.stressScore == CalculateStressScore(metrics.speed, metrics.errors)
        && emitted == old(emitted) + [metrics.stressScore] && previousText == value
    {
      CalculateMetrics(value, now);
      text := value;
      if Utf16Length(text) > 0 && startTime.None? {
        startTime := Some(effectTime);
      }
    }
  }

  /** The first keystroke only starts the clock: no score is emitted, and the
      previous text stays empty, so the second keystroke's error count is the
      whole length of the text. */
  method FirstTwoKeystrokes()
  {
    var d := new Detector();
    assert Utf16Length("a") == 1 && Utf16Length("ab") == 2;
    d.OnChange("a", 1000, 1000);
    assert d.emitted == [] && d.previousText == "" && d.startTime == Some(1000);
    d.OnChange("ab", 2000, 2000);
    assert d.metrics.errors == 2 && d.metrics.speed == 2.0;
    assert d.emitted == [CalculateStressScore(2.0, 2)];
  }
}
