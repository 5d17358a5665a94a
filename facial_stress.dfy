/** The facial stress detector: a weighted average of the expression
    probabilities a face detector reports, a decay while no face is seen, a
    one-second rate limit, and a display value eased towards the stored level. */
module FacialStress {
  import opened Wrappers
  import opened Numeric

  /** One `[emotion, probability]` pair of `Object.entries(expressions)`. */
  type Expressions = seq<(string, real)>

  /** The weight table; expressions it does not list (neutral) have no weight. */
  function WeightOf(emotion: string): (w: Option<real>)
    ensures w.Some? ==> 0.0 <= w.value <= 100.0
    ensures emotion == "angry" ==> w == Some(100.0)
    ensures emotion == "happy" ==> w == Some(0.0)
    ensures emotion == "neutral" ==> w == None
  {
    if emotion == "angry" then Some(100.0)
    else if emotion == "disgusted" then Some(90.0)
    else if emotion == "fearful" then Some(80.0)
    else if emotion == "sad" then Some(70.0)
    else if emotion == "surprised" then Some(40.0)
    else if emotion == "happy" then Some(0.0)
    else None
  }

  /** `totalScore`: the sum of weight times probability over the weighted
      expressions, in iteration order. */
  function WeightedSum(e: Expressions): real
  {
    if e == [] then 0.0
    else
      var (emotion, p) := e[|e| - 1];
      WeightedSum(e[..|e| - 1]) + (if WeightOf(emotion).Some? then WeightOf(emotion).value * p else 0.0)
  }

  /** `totalWeight`: the sum of the probabilities of the weighted expressions. */
  function KnownMass(e: Expressions): real
  {
    if e == [] then 0.0
    else
      var (emotion, p) := e[|e| - 1];
      KnownMass(e[..|e| - 1]) + (if WeightOf(emotion).Some? then p else 0.0)
  }

  /** The score `calculateStressScore` computes: the rounded weighted average,
      0 when the weighted expressions carry no probability. */
  function Score(e: Expressions): int
  {
    var mass := KnownMass(e);
    if mass > 0.0 then Round(WeightedSum(e) / mass) else 0
  }

  /** `calculateStressScore`: the forEach accumulating both totals. */
  method CalculateStressScore(expressions: Expressions) returns (score: int)
    ensures score == Score(expressions)
  {
    var totalScore := 0.0;
    var totalWeight := 0.0;
    var i := 0;
    while i < |expressions|
      invariant 0 <= i <= |expressions|
      invariant totalScore == WeightedSum(expressions[..i])
      invariant totalWeight == KnownMass(expressions[..i])
    {
      var (emotion, probability) := expressions[i];
      var weight := WeightOf(emotion);
      if weight.Some? {
        totalScore := totalScore + weight.value * probability;
        totalWeight := totalWeight + probability;
      }
      assert expressions[..i + 1][..i] == expressions[..i];
      i := i + 1;
    }
    assert expressions[..i] == expressions;
    score := if totalWeight > 0.0 then Round(totalScore / totalWeight) else 0;
  }

  /** The detector reports probabilities, which are never negative. */
  predicate Probabilities(e: Expressions)
  {
    forall i :: 0 <= i < |e| ==> e[i].1 >= 0.0
  }

  lemma {:induction false} WeightedSumBounds(e: Expressions)
    requires Probabilities(e)
    ensures 0.0 <= KnownMass(e)
    ensures 0.0 <= WeightedSum(e) <= 100.0 * KnownMass(e)
  {
    if e != [] {
      WeightedSumBounds(e[..|e| - 1]);
    }
  }

  /** With probabilities as input the score is a percentage. */
  lemma ScoreIsPercentage(e: Expressions)
    requires Probabilities(e)
    ensures 0 <= Score(e) <= 100
  {
    WeightedSumBounds(e);
    var mass := KnownMass(e);
    if mass > 0.0 {
      RatioBounds(WeightedSum(e), mass, 100.0);
      RoundWithin(WeightedSum(e) / mass, 0, 100);
    }
  }

  lemma {:induction false} HappyContributesNothing(e: Expressions)
    requires forall i :: 0 <= i < |e| ==> e[i].0 == "happy"
    ensures WeightedSum(e) == 0.0
  {
    if e != [] {
      HappyContributesNothing(e[..|e| - 1]);
    }
  }

  /** A face that is only happy scores 0. */
  lemma AllHappyScoresZero(e: Expressions)
    requires forall i :: 0 <= i < |e| ==> e[i].0 == "happy"
    ensures Score(e) == 0
  {
    HappyContributesNothing(e);
  }

  lemma {:induction false} AngryIsFullWeight(e: Expressions)
    requires forall i :: 0 <= i < |e| ==> e[i].0 == "angry"
    ensures WeightedSum(e) == 100.0 * KnownMass(e)
  {
    if e != [] {
      AngryIsFullWeight(e[..|e| - 1]);
    }
  }

  /** A face that is only angry, with some probability, scores 100. */
  lemma AllAngryScoresHundred(e: Expressions)
    requires forall i :: 0 <= i < |e| ==> e[i].0 == "angry"
    requires KnownMass(e) > 0.0
    ensures Score(e) == 100
  {
    AngryIsFullWeight(e);
    ScoreOfFullWeight(WeightedSum(e), KnownMass(e));
  }

  lemma ScoreOfFullWeight(total: real, mass: real)
    requires mass > 0.0 && total == 100.0 * mass
    ensures Round(total / mass) == 100
  {
    assert total / mass == 100.0;
  }

  lemma {:induction false} SumsOfConcat(a: Expressions, b: Expressions)
    ensures WeightedSum(a + b) == WeightedSum(a) + WeightedSum(b)
    ensures KnownMass(a + b) == KnownMass(a) + KnownMass(b)
  {
    if b == [] {
      assert a + b == a;
    } else {
      assert (a + b)[..|a + b| - 1] == a + b[..|b| - 1];
      assert (a + b)[|a + b| - 1] == b[|b| - 1];
      SumsOfConcat(a, b[..|b| - 1]);
    }
  }

  /** An expression outside the weight table, wherever it appears and whatever
      its probability, does not change the score. */
  lemma UnknownExpressionIgnored(a: Expressions, emotion: string, p: real, b: Expressions)
    requires WeightOf(emotion) == None
    ensures Score(a + [(emotion, p)] + b) == Score(a + b)
  {
    SumsOfConcat(a, [(emotion, p)]);
    SumsOfConcat(a + [(emotion, p)], b);
    SumsOfConcat(a, b);
    assert [(emotion, p)][..0] == [];
  }

  /** The no-face step: `Math.max(0, prev - 2)`. */
  function Decay(prev: int): (level: nat)
    ensures prev >= 2 ==> level == prev - 2
    ensures prev < 2 ==> level == 0
  {
    if prev - 2 > 0 then prev - 2 else 0
  }

  /** Without a face the level reaches 0 after enough updates and stays there. */
  function Decays(prev: int, n: nat): nat
    decreases n
  {
    if n == 0 then (if prev > 0 then prev else 0) else Decays(Decay(prev), n - 1)
  }

  lemma {:induction false} DecaysReachZero(prev: nat, n: nat)
    requires 2 * n >= prev
    ensures Decays(prev, n) == 0
  {
    if n > 0 {
      DecaysReachZero(Decay(prev), n - 1);
    }
  }

  /** One 100 ms step of the display easing. */
  function EaseStep(prev: real, target: real): (next: real)
    ensures Abs(target - prev) < 1.0 ==> next == target
    ensures Abs(target - prev) >= 1.0 ==> next == prev + (target - prev) * 0.1
  {
    var diff := target - prev;
    if Abs(diff) < 1.0 then target else prev + diff * 0.1
  }

  /** Each easing step moves towards the target without passing it, and closes at
      least a tenth of the distance. */
  lemma EaseStepApproaches(prev: real, target: real)
    ensures prev <= target ==> prev <= EaseStep(prev, target) <= target
    ensures target <= prev ==> target <= EaseStep(prev, target) <= prev
    ensures Abs(target - EaseStep(prev, target)) <= 0.9 * Abs(target - prev)
    ensures prev != target ==> Abs(target - EaseStep(prev, target)) < Abs(target - prev)
  {
  }

  datatype FaceBand = LowStress | ModerateStress | HighStress

  function FaceBandOf(level: real): (b: FaceBand)
    ensures b == LowStress <==> level < 30.0
    ensures b == ModerateStress <==> 30.0 <= level < 60.0
    ensures b == HighStress <==> 60.0 <= level
  {
    if level < 30.0 then LowStress else if level < 60.0 then ModerateStress else HighStress
  }

  /** `getStressColor`. */
  function GetStressColor(level: real): (c: string)
    ensures c == "bg-green-500" <==> FaceBandOf(level) == LowStress
    ensures c == "bg-yellow-500" <==> FaceBandOf(level) == ModerateStress
    ensures c == "bg-red-500" <==> FaceBandOf(level) == HighStress
  {
    if level < 30.0 then "bg-green-500" else if level < 60.0 then "bg-yellow-500" else "bg-red-500"
  }

  /** `getStressMessage`. */
  function GetStressMessage(level: real): (m: string)
    ensures m == "Low Stress" <==> FaceBandOf(level) == LowStress
    ensures m == "Moderate Stress" <==> FaceBandOf(level) == ModerateStress
    ensures m == "High Stress" <==> FaceBandOf(level) == HighStress
  {
    if level < 30.0 then "Low Stress" else if level < 60.0 then "Moderate Stress" else "High Stress"
  }

  /** The colour and the message always name the same band. */
  lemma ColorAndMessageAgree(x: real, y: real)
    ensures GetStressColor(x) == GetStressColor(y) <==> GetStressMessage(x) == GetStressMessage(y)
  {
    assert GetStressColor(x) == GetStressColor(y) <==> FaceBandOf(x) == FaceBandOf(y);
    assert GetStressMessage(x) == GetStressMessage(y) <==> FaceBandOf(x) == FaceBandOf(y);
  }

  class Detector {
    var stressLevel: int
    var displayedStressLevel: real
    /** `lastUpdateRef`, in milliseconds. */
    var lastUpdate: int
    /** The values passed to `onStressChange`, oldest first. */
    var emitted: seq<int>

    ghost predicate Valid()
      reads this
    {
      0 <= stressLevel <= 100 && 0.0 <= displayedStressLevel <= 100.0
    }

    constructor ()
      ensures Valid()
      ensures stressLevel == 0 && displayedStressLevel == 0.0 && lastUpdate == 0 && emitted == []
    {
      stressLevel := 0;
      displayedStressLevel := 0.0;
      lastUpdate := 0;
      emitted := [];
    }

    /** One detection pass at time `now`; `face` is the first detected face's
        expressions, or None when no face was found. Within a second of the
        last update nothing changes. */
    method DetectionTick(now: int, face: Option<Expressions>)
      requires Valid()
      requires face.Some? ==> Probabilities(face.value)
      modifies this
      ensures Valid()
      ensures now - old(lastUpdate) < 1000 ==>
        stressLevel == old(stressLevel) && lastUpdate == old(lastUpdate) && emitted == old(emitted)
      ensures now - old(lastUpdate) >= 1000 ==>
        lastUpdate == now
        && stressLevel == (if face.Some? then Score(face.value) else Decay(old(stressLevel)))
        && emitted == old(emitted) + [stressLevel]
      ensures displayedStressLevel == old(displayedStressLevel)
    {
      if now - lastUpdate >= 1000 {
        if face.Some? {
          var score := CalculateStressScore(face.value);
          ScoreIsPercentage(face.value);
          stressLevel := score;
        } else {
          stressLevel := Decay(stressLevel);
        }
        emitted := emitted + [stressLevel];
        lastUpdate := now;
      }
    }

    /** One run of the 100 ms easing interval. */
    method EaseDisplay()
      requires Valid()
      modifies this
      ensures Valid()
      ensures displayedStressLevel == EaseStep(old(displayedStressLevel), stressLevel as real)
      ensures stressLevel == old(stressLevel) && lastUpdate == old(lastUpdate) && emitted == old(emitted)
    {
      EaseStepApproaches(displayedStressLevel, stressLevel as real);
      displayedStressLevel := EaseStep(displayedStressLevel, stressLevel as real);
    }
  }
}
