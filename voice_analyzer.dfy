/** The simpler voice analyser: the RMS volume as a capped percentage, the pitch
    from the loudest time-domain sample, and a linear score on both. */
module VoiceAnalyzer {
  import opened Numeric

  const SampleRate: real := 44100.0
  const PitchThreshold: real := 0.1

  datatype VoiceMetrics = VoiceMetrics(pitch: real, volume: real, stressScore: real)

  /** `Math.min(100, rms * 100)`; the RMS itself (a square root) is an input. */
  function CalculateVolume(rms: real): (volume: real)
    ensures volume <= 100.0
    ensures rms >= 0.0 ==> volume >= 0.0
    ensures rms <= 1.0 ==> volume == rms * 100.0
  {
    Min(100.0, rms * 100.0)
  }

  /** The pitch `calculatePitch` returns: the first loudest sample's index
      converted to hertz, kept only above the threshold. An empty buffer gives
      0 (the division yields -Infinity, which is not above the threshold). */
  function PitchOf(samples: seq<real>): (pitch: real)
    ensures pitch == 0.0 || pitch > PitchThreshold
    ensures |samples| == 0 || FirstMaxIndex(samples) == 0 ==> pitch == 0.0
    ensures |samples| > 0 && pitch > 0.0 ==>
      pitch * |samples| as real == FirstMaxIndex(samples) as real * SampleRate
    ensures |samples| > 0 ==>
      (FirstMaxIndex(samples) as real * SampleRate > PitchThreshold * |samples| as real
       <==> pitch > 0.0)
  {
    if |samples| == 0 then 0.0
    else
      var scaled := FirstMaxIndex(samples) as real * SampleRate;
      var frequency := scaled / |samples| as real;
      DivideThenMultiply(scaled, |samples| as real);
      ScaleCompare(frequency, |samples| as real, scaled, PitchThreshold);
      if frequency > PitchThreshold then frequency else 0.0
  }

  /** `calculatePitch`: the scan starting from -Infinity and index -1. */
  method CalculatePitch(samples: seq<real>) returns (pitch: real)
    ensures pitch == PitchOf(samples)
  {
    var bufferSize := |samples|;
    var maxValue := 0.0;
    var maxIndex := -1;
    var i := 0;
    while i < bufferSize
      invariant 0 <= i <= bufferSize
      invariant i == 0 <==> maxIndex == -1
      invariant i > 0 ==> maxIndex == FirstMaxIndex(samples[..i]) && maxValue == samples[maxIndex]
    {
      assert samples[..i + 1][..i] == samples[..i];
      if maxIndex == -1 || samples[i] > maxValue {
        maxValue := samples[i];
        maxIndex := i;
      }
      i := i + 1;
    }
    assert samples[..i] == samples;
    if bufferSize == 0 {
      pitch := 0.0;
    } else {
      var frequency := (maxIndex as real * SampleRate) / bufferSize as real;
      pitch := if frequency > PitchThreshold then frequency else 0.0;
    }
  }

  /** `calculateStressScore`: a base of 50, 30 per 100 % volume and 20 per
      100 Hz of positive pitch, capped at 100. */
  function CalculateStressScore(volume: real, pitch: real): (score: real)
    ensures score <= 100.0
    ensures volume >= 0.0 ==> score >= 50.0
    ensures pitch <= 0.0 ==> score == Min(100.0, 50.0 + volume * 0.3)
    ensures score < 100.0 ==> score == 50.0 + volume * 0.3 + (if pitch > 0.0 then pitch * 0.2 else 0.0)
  {
    var volumeFactor := volume / 100.0;
    var pitchFactor := if pitch > 0.0 then pitch / 100.0 else 0.0;
    Min(100.0, 50.0 + volumeFactor * 30.0 + pitchFactor * 20.0)
  }

  /** A louder voice or a higher pitch never lowers the score. */
  lemma ScoreMonotone(v1: real, p1: real, v2: real, p2: real)
    requires v1 <= v2 && p1 <= p2
    ensures CalculateStressScore(v1, p1) <= CalculateStressScore(v2, p2)
  {
  }

  class Analyzer {
    var metrics: VoiceMetrics
    /** The values passed to `onStressChange`, oldest first. */
    var emitted: seq<real>

    constructor ()
      ensures metrics == VoiceMetrics(0.0, 0.0, 0.0) && emitted == []
    {
      metrics := VoiceMetrics(0.0, 0.0, 0.0);
      emitted := [];
    }

    /** One `analyzeAudio` frame over the time-domain samples, whose RMS is
        `rms`. */
    method AnalyzeFrame(samples: seq<real>, rms: real)
      requires rms >= 0.0
      modifies this
      ensures metrics.volume == CalculateVolume(rms) && metrics.pitch == PitchOf(samples)
      ensures metrics.stressScore == CalculateStressScore(metrics.volume, metrics.pitch)
      ensures 50.0 <= metrics.stressScore <= 100.0
      ensures emitted == old(emitted) + [metrics.stressScore]
    {
      var volume := CalculateVolume(rms);
      var pitch := CalculatePitch(samples);
      var stressScore := CalculateStressScore(volume, pitch);
      metrics := VoiceMetrics(pitch, volume, stressScore);
      emitted := emitted + [stressScore];
    }
  }
}
