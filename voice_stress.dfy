/** The voice stress detector: the last twenty analyser frames (linear volume
    and dominant frequency bin), and a clamped score from their means and
    standard deviations. */
module VoiceStress {
  import opened Numeric

  const HistorySize: nat := 20

  /** `calculateDominantFrequency`: the scan starting from -Infinity and bin 0. */
  method CalculateDominantFrequency(spectrum: seq<real>) returns (dominantFreq: nat)
    ensures dominantFreq == FirstMaxIndex(spectrum)
  {
    dominantFreq := 0;
    var seen := false;
    var maxValue := 0.0;
    var i := 0;
    while i < |spectrum|
      invariant 0 <= i <= |spectrum|
      invariant seen <==> i > 0
      invariant seen ==> dominantFreq == FirstMaxIndex(spectrum[..i]) && dominantFreq < i
      invariant seen ==> maxValue == spectrum[dominantFreq]
      invariant !seen ==> dominantFreq == 0
    {
      assert spectrum[..i + 1][..i] == spectrum[..i];
      if !seen || spectrum[i] > maxValue {
        maxValue := spectrum[i];
        dominantFreq := i;
      }
      seen := true;
      i := i + 1;
    }
    assert spectrum[..i] == spectrum;
  }

  /** `Math.pow(b - mean, 2)`. */
  function SquaredDeviation(x: real, mean: real): (r: real)
    ensures r >= 0.0
    ensures x == mean ==> r == 0.0
  {
    (x - mean) * (x - mean)
  }

  /** The squared deviations from the mean. */
  function SquaredDeviations(values: seq<real>): (d: seq<real>)
    requires |values| > 0
    ensures |d| == |values|
    ensures forall i :: 0 <= i < |d| ==> d[i] >= 0.0
  {
    var mean := Mean(values);
    seq(|values|, i requires 0 <= i < |values| => SquaredDeviation(values[i], mean))
  }

  /** The population variance, whose square root `calculateVariation` takes. */
  function Variance(values: seq<real>): (v: real)
    requires |values| > 0
    ensures v >= 0.0
  {
    var d := SquaredDeviations(values);
    SumNonNegative(d);
    Sum(d) / |values| as real
  }

  /** `calculateVariation`: 0 for fewer than two values, otherwise the standard
      deviation, given as `root` (the `Math.sqrt` result). */
  function CalculateVariation(values: seq<real>, root: real): (sd: real)
    requires |values| >= 2 ==> root >= 0.0 && root * root == Variance(values)
    ensures sd >= 0.0
    ensures |values| < 2 ==> sd == 0.0
    ensures |values| >= 2 ==> sd * sd == Variance(values)
  {
    if |values| < 2 then 0.0 else root
  }

  /** Values that never change have their value as mean and no variance. */
  lemma ConstantValuesNoVariance(values: seq<real>, c: real)
    requires |values| >= 1 && forall i :: 0 <= i < |values| ==> values[i] == c
    ensures Mean(values) == c
    ensures Variance(values) == 0.0
  {
    SumBounds(values, c, c);
    var n := |values| as real;
    CancelDivide(c, Sum(values), n);
    var d := SquaredDeviations(values);
    forall i | 0 <= i < |d|
      ensures d[i] == 0.0
    {
      assert d[i] == SquaredDeviation(values[i], Mean(values));
    }
    SumBounds(d, 0.0, 0.0);
  }

  /** `(avgVolume * 0.6 + volumeVariation * 0.4) * 100`. */
  function VolumeStress(avgVolume: real, variation: real): real
  {
    (avgVolume * 0.6 + variation * 0.4) * 100.0
  }

  /** `(frequencyVariation / avgFrequency) * 100`. */
  function FrequencyStress(variation: real, avgFrequency: real): real
    requires avgFrequency > 0.0
  {
    variation / avgFrequency * 100.0
  }

  /** The weighted combination before rounding and clamping. */
  function RawStress(volumes: seq<real>, frequencies: seq<real>, volumeRoot: real, frequencyRoot: real): real
    requires |volumes| >= 2 && |frequencies| >= 2 && Mean(frequencies) > 0.0
    requires volumeRoot >= 0.0 && volumeRoot * volumeRoot == Variance(volumes)
    requires frequencyRoot >= 0.0 && frequencyRoot * frequencyRoot == Variance(frequencies)
  {
    VolumeStress(Mean(volumes), CalculateVariation(volumes, volumeRoot)) * 0.7
    + FrequencyStress(CalculateVariation(frequencies, frequencyRoot), Mean(frequencies)) * 0.3
  }

  /** `Math.min(Math.max(x, 0), 100)`. */
  function Clamp(x: int): (r: int)
    ensures 0 <= r <= 100
    ensures 0 <= x <= 100 ==> r == x
    ensures x < 0 ==> r == 0
    ensures x > 100 ==> r == 100
  {
    if x < 0 then 0 else if x > 100 then 100 else x
  }

  /** The two root arguments are the `Math.sqrt` results of the two variances. */
  predicate Roots(volumes: seq<real>, frequencies: seq<real>, volumeRoot: real, frequencyRoot: real)
  {
    |volumes| >= 2 && |frequencies| >= 2 ==>
      Mean(frequencies) > 0.0
      && volumeRoot >= 0.0 && volumeRoot * volumeRoot == Variance(volumes)
      && frequencyRoot >= 0.0 && frequencyRoot * frequencyRoot == Variance(frequencies)
  }

  /** `calculateStressLevel`: 0 with fewer than two samples in either history,
      otherwise the rounded combination clamped to [0, 100]. */
  function CalculateStressLevel(volumes: seq<real>, frequencies: seq<real>,
                                volumeRoot: real, frequencyRoot: real): (level: int)
    requires Roots(volumes, frequencies, volumeRoot, frequencyRoot)
    ensures 0 <= level <= 100
    ensures |volumes| < 2 || |frequencies| < 2 ==> level == 0
    ensures |volumes| >= 2 && |frequencies| >= 2 ==>
      var r := Round(RawStress(volumes, frequencies, volumeRoot, frequencyRoot));
      (0 <= r <= 100 ==> level == r) && (r < 0 ==> level == 0) && (r > 100 ==> level == 100)
  {
    if |volumes| < 2 || |frequencies| < 2 then 0
    else Clamp(Round(RawStress(volumes, frequencies, volumeRoot, frequencyRoot)))
  }

  /** A louder or more variable combination never lowers the level. */
  lemma LevelMonotone(x: real, y: real)
    requires x <= y
    ensures Clamp(Round(x)) <= Clamp(Round(y))
  {
    RoundMonotone(x, y);
  }

  /** A steady voice at linear volume v and a fixed positive frequency bin (both
      standard deviations 0) scores `round(42 * v)`, clamped: only the mean
      volume counts. */
  lemma SteadyVoice(volumes: seq<real>, frequencies: seq<real>, v: real, f: real,
                    volumeRoot: real, frequencyRoot: real)
    requires |volumes| >= 2 && |frequencies| >= 2 && f > 0.0
    requires forall i :: 0 <= i < |volumes| ==> volumes[i] == v
    requires forall i :: 0 <= i < |frequencies| ==> frequencies[i] == f
    requires volumeRoot == 0.0 && frequencyRoot == 0.0
    ensures Roots(volumes, frequencies, volumeRoot, frequencyRoot)
    ensures CalculateStressLevel(volumes, frequencies, volumeRoot, frequencyRoot) == Clamp(Round(42.0 * v))
  {
    ConstantValuesNoVariance(volumes, v);
    ConstantValuesNoVariance(frequencies, f);
    assert RawStress(volumes, frequencies, volumeRoot, frequencyRoot) == 42.0 * v;
  }

  /** Push onto a history, then drop the oldest sample when it holds more than
      twenty. */
  function Slide(history: seq<real>, sample: real): (h: seq<real>)
    requires |history| <= HistorySize
    ensures |h| <= HistorySize && |h| > 0 && h[|h| - 1] == sample
    ensures |history| < HistorySize ==> h == history + [sample]
    ensures |history| == HistorySize ==> h == history[1..] + [sample]
  {
    var pushed := history + [sample];
    if |pushed| > HistorySize then pushed[1..] else pushed
  }

  class Detector {
    var isRecording: bool
    /** `volumeHistoryRef`: linear volumes, oldest first. */
    var volumeHistory: seq<real>
    /** `frequencyHistoryRef`: dominant frequency bins, oldest first. */
    var frequencyHistory: seq<real>
    var stressLevel: int
    /** The values passed to `onStressChange`, oldest first. */
    var emitted: seq<int>

    /** Both histories always have the same length, at most twenty. */
    ghost predicate Valid()
      reads this
    {
      |volumeHistory| == |frequencyHistory| <= HistorySize && 0 <= stressLevel <= 100
    }

    constructor ()
      ensures Valid() && !isRecording && volumeHistory == [] && frequencyHistory == []
      ensures stressLevel == 0 && emitted == []
    {
      isRecording := false;
      volumeHistory := [];
      frequencyHistory := [];
      stressLevel := 0;
      emitted := [];
    }

    /** One `analyzeAudio` frame: `linearVolume` is the dB average converted to
        a linear scale, `spectrum` the analyser's frequency data, and the roots
        are the standard deviations of the two new histories. */
    method AnalyzeFrame(linearVolume: real, spectrum: seq<real>, volumeRoot: real, frequencyRoot: real)
      requires Valid()
      requires Roots(Slide(volumeHistory, linearVolume),
                     Slide(frequencyHistory, FirstMaxIndex(spectrum) as real), volumeRoot, frequencyRoot)
      modifies this
      ensures Valid()
      ensures volumeHistory == Slide(old(volumeHistory), linearVolume)
      ensures frequencyHistory == Slide(old(frequencyHistory), FirstMaxIndex(spectrum) as real)
      ensures stressLevel == CalculateStressLevel(volumeHistory, frequencyHistory, volumeRoot, frequencyRoot)
      ensures emitted == old(emitted) + [stressLevel] && isRecording == old(isRecording)
    {
      var dominantFrequency := CalculateDominantFrequency(spectrum);
      var volumes := volumeHistory + [linearVolume];
      var frequencies := frequencyHistory + [dominantFrequency as real];
      if |volumes| > HistorySize {
        volumes := volumes[1..];
        frequencies := frequencies[1..];
      }
      assert volumes == Slide(volumeHistory, linearVolume);
      assert frequencies == Slide(frequencyHistory, dominantFrequency as real);
      var level := CalculateStressLevel(volumes, frequencies, volumeRoot, frequencyRoot);
      volumeHistory := volumes;
      frequencyHistory := frequencies;
      stressLevel := level;
      emitted := emitted + [level];
    }

    /** `startRecording`, once the microphone and the analyser are set up. */
    method StartRecording()
      requires Valid()
      modifies this
      ensures Valid() && isRecording
      ensures volumeHistory == old(volumeHistory) && frequencyHistory == old(frequencyHistory)
      ensures stressLevel == old(stressLevel) && emitted == old(emitted)
    {
      isRecording := true;
    }

    /** `stopRecording`: both histories are emptied. */
    method StopRecording()
      requires Valid()
      modifies this
      ensures Valid() && !isRecording && volumeHistory == [] && frequencyHistory == []
      ensures stressLevel == old(stressLevel) && emitted == old(emitted)
    {
      volumeHistory := [];
      frequencyHistory := [];
      isRecording := false;
    }
  }
}
