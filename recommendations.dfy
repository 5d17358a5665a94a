/** The recommendation engine: the mean of the defined stress indicators selects
    one of three tiers, each tier filters and truncates a fixed six-entry catalog,
    and a low sentiment value appends the calming breathing entries. */
module Recommendations {
  import opened Wrappers
  import opened Numeric
  import opened Sequences

  datatype ActivityType = Exercise | Meditation | Breathing
  datatype Intensity = Low | Medium | High

  datatype Recommendation = Recommendation(
    kind: ActivityType, title: string, description: string, duration: nat, intensity: Intensity)

  /** Every field may be absent (`undefined`). */
  datatype StressIndicators = StressIndicators(
    facialStress: Option<real>, typingStress: Option<real>, voiceStress: Option<real>,
    sentiment: Option<real>)

  const DeepBreathing := Recommendation(Breathing, "Deep Breathing",
    "Take slow, deep breaths to calm your mind and reduce stress.", 5, Low)
  const BoxBreathing := Recommendation(Breathing, "Box Breathing",
    "Inhale, hold, exhale, and hold again in equal counts.", 10, Medium)
  const MindfulPause := Recommendation(Meditation, "Mindful Pause",
    "Take a moment to observe your thoughts without judgment.", 5, Low)
  const BodyScan := Recommendation(Meditation, "Body Scan",
    "Focus on different parts of your body, releasing tension.", 15, Medium)
  const QuickStretch := Recommendation(Exercise, "Quick Stretch",
    "Simple stretches to release physical tension.", 5, Low)
  const DeskYoga := Recommendation(Exercise, "Desk Yoga",
    "Gentle yoga poses you can do at your desk.", 10, Medium)

  /** The catalog, in declaration order. */
  const Catalog: seq<Recommendation> :=
    [DeepBreathing, BoxBreathing, MindfulPause, BodyScan, QuickStretch, DeskYoga]

  function Present(o: Option<real>): (s: seq<real>)
    ensures |s| <= 1
  {
    if o.Some? then [o.value] else []
  }

  /** The stress indicators that are defined, facial, typing, voice. */
  function DefinedLevels(ind: StressIndicators): seq<real>
  {
    Present(ind.facialStress) + Present(ind.typingStress) + Present(ind.voiceStress)
  }

  /** The mean of the defined indicators, 0 when none is defined: times the
      number of defined indicators it is their total. */
  function AverageStress(ind: StressIndicators): (avg: real)
    ensures avg * IndicatorCount(ind) as real == IndicatorTotal(ind)
    ensures IndicatorCount(ind) == 0 ==> avg == 0.0
  {
    var count := IndicatorCount(ind);
    if count > 0 then
      DivideThenMultiply(IndicatorTotal(ind), count as real);
      IndicatorTotal(ind) / count as real
    else 0.0
  }

  /** What an indicator adds to the total: its value, or nothing when undefined. */
  function Contribution(o: Option<real>): real
  {
    if o.Some? then o.value else 0.0
  }

  function Presence(o: Option<real>): nat
  {
    if o.Some? then 1 else 0
  }

  /** How many of the three indicators are defined. */
  function IndicatorCount(ind: StressIndicators): nat
  {
    Presence(ind.facialStress) + Presence(ind.typingStress) + Presence(ind.voiceStress)
  }

  /** The sum of the defined indicators. */
  function IndicatorTotal(ind: StressIndicators): real
  {
    Contribution(ind.facialStress) + Contribution(ind.typingStress) + Contribution(ind.voiceStress)
  }

  lemma SumAppendPresent(s: seq<real>, o: Option<real>)
    ensures |s + Present(o)| == |s| + Presence(o)
    ensures Sum(s + Present(o)) == Sum(s) + Contribution(o)
  {
    if o.Some? {
      assert (s + [o.value])[..|s|] == s;
    } else {
      assert s + [] == s;
    }
  }

  /** The source's pipeline (filter the defined indicators, reduce them with
      `+`, divide by their number) computes the same average. */
  lemma AverageOfDefinedLevels(ind: StressIndicators)
    ensures |DefinedLevels(ind)| == 0 ==> AverageStress(ind) == 0.0
    ensures |DefinedLevels(ind)| > 0 ==> AverageStress(ind) == Mean(DefinedLevels(ind))
  {
    DefinedLevelsTotals(ind);
  }

  /** The defined levels are as many as the defined indicators and add up to
      their total. */
  lemma DefinedLevelsTotals(ind: StressIndicators)
    ensures |DefinedLevels(ind)| == IndicatorCount(ind)
    ensures Sum(DefinedLevels(ind)) == IndicatorTotal(ind)
  {
    var first := Present(ind.facialStress);
    var second := first + Present(ind.typingStress);
    SumAppendPresent([], ind.facialStress);
    assert [] + first == first;
    SumAppendPresent(first, ind.typingStress);
    SumAppendPresent(second, ind.voiceStress);
    assert DefinedLevels(ind) == second + Present(ind.voiceStress);
  }

  /** Indicators that all lie in [0, 100] average to a value in [0, 100]. */
  lemma AverageWithinRange(ind: StressIndicators)
    requires forall x :: x in DefinedLevels(ind) ==> 0.0 <= x <= 100.0
    ensures 0.0 <= AverageStress(ind) <= 100.0
  {
    var levels := DefinedLevels(ind);
    AverageOfDefinedLevels(ind);
    if |levels| > 0 {
      forall i | 0 <= i < |levels| ensures 0.0 <= levels[i] <= 100.0 {
        assert levels[i] in levels;
      }
      MeanBounds(levels, 0.0, 100.0);
    }
  }

  datatype Tier = HighStress | ModerateStress | LowStress

  /** The strict thresholds `> 70` and `> 40`. */
  function TierOf(avg: real): (t: Tier)
    ensures t == HighStress <==> avg > 70.0
    ensures t == ModerateStress <==> 40.0 < avg <= 70.0
    ensures t == LowStress <==> avg <= 40.0
  {
    if avg > 70.0 then HighStress else if avg > 40.0 then ModerateStress else LowStress
  }

  /** High stress: immediate relief. */
  predicate ReliefEntry(ex: Recommendation)
  {
    ex.intensity == Low && ex.duration <= 5
  }

  /** Medium stress: a mix of immediate and longer-term entries. */
  predicate MixedEntry(ex: Recommendation)
  {
    ex.intensity == Medium || ex.duration <= 10
  }

  /** Low stress: prevention and maintenance. */
  predicate PreventionEntry(ex: Recommendation)
  {
    ex.intensity == Medium && ex.duration >= 10
  }

  /** The entries appended for a negative sentiment. */
  predicate CalmingEntry(ex: Recommendation)
  {
    ex.kind == Breathing && ex.intensity == Low
  }

  function TierFilter(t: Tier): Recommendation -> bool
  {
    match t
    case HighStress => ReliefEntry
    case ModerateStress => MixedEntry
    case LowStress => PreventionEntry
  }

  function TierLimit(t: Tier): nat
  {
    match t
    case HighStress => 2
    case ModerateStress => 3
    case LowStress => 2
  }

  /** The list a tier yields before the sentiment step: a prefix of the catalog
      filtered by the tier's predicate, so catalog order is kept. */
  function TierRecommendations(t: Tier): (r: seq<Recommendation>)
    ensures r <= Filter(Catalog, TierFilter(t))
    ensures |r| <= TierLimit(t) <= 3
    ensures forall x :: x in r ==> x in Catalog && TierFilter(t)(x)
  {
    FilterMembers(Catalog, TierFilter(t));
    Take(Filter(Catalog, TierFilter(t)), TierLimit(t))
  }

  predicate LowSentiment(ind: StressIndicators)
  {
    ind.sentiment.Some? && ind.sentiment.value < 0.3
  }

  function GetPersonalizedRecommendations(ind: StressIndicators): (r: seq<Recommendation>)
    ensures |r| <= 3
    ensures forall x :: x in r ==> x in Catalog
  {
    var recommendations := TierRecommendations(TierOf(AverageStress(ind)));
    FilterMembers(Catalog, CalmingEntry);
    if LowSentiment(ind) then
      Take(recommendations + Filter(Catalog, CalmingEntry), 3)
    else
      recommendations
  }

  /** Filtering tests the head, then filters the rest. */
  lemma FilterCons<T>(x: T, s: seq<T>, p: T -> bool)
    ensures Filter([x] + s, p) == (if p(x) then [x] else []) + Filter(s, p)
  {
    assert ([x] + s)[0] == x && ([x] + s)[1..] == s;
  }

  /** Filtering the catalog tests its entries one at a time, in order. */
  lemma FilterCatalog(p: Recommendation -> bool)
    ensures Filter(Catalog, p) ==
      (if p(DeepBreathing) then [DeepBreathing] else []) + Filter(Catalog[1..], p)
    ensures Filter(Catalog[1..], p) ==
      (if p(BoxBreathing) then [BoxBreathing] else []) + Filter(Catalog[2..], p)
    ensures Filter(Catalog[2..], p) ==
      (if p(MindfulPause) then [MindfulPause] else []) + Filter(Catalog[3..], p)
    ensures Filter(Catalog[3..], p) ==
      (if p(BodyScan) then [BodyScan] else []) + Filter(Catalog[4..], p)
    ensures Filter(Catalog[4..], p) ==
      (if p(QuickStretch) then [QuickStretch] else []) + Filter(Catalog[5..], p)
    ensures Filter(Catalog[5..], p) == if p(DeskYoga) then [DeskYoga] else []
  {
    var c := Catalog;
    assert c[1..][1..] == c[2..] && c[2..][1..] == c[3..] && c[3..][1..] == c[4..];
    assert c[4..][1..] == c[5..] && c[5..][1..] == [];
  }

  lemma ReliefFilter()
    ensures Filter(Catalog, ReliefEntry) == [DeepBreathing, MindfulPause, QuickStretch]
  {
    FilterCatalog(ReliefEntry);
    assert ReliefEntry(DeepBreathing) && !ReliefEntry(BoxBreathing) && ReliefEntry(MindfulPause);
    assert !ReliefEntry(BodyScan) && ReliefEntry(QuickStretch) && !ReliefEntry(DeskYoga);
  }

  lemma MixedFilter()
    ensures Filter(Catalog, MixedEntry) == Catalog
  {
    FilterCatalog(MixedEntry);
    assert MixedEntry(DeepBreathing) && MixedEntry(BoxBreathing) && MixedEntry(MindfulPause);
    assert MixedEntry(BodyScan) && MixedEntry(QuickStretch) && MixedEntry(DeskYoga);
  }

  lemma PreventionFilter()
    ensures Filter(Catalog, PreventionEntry) == [BoxBreathing, BodyScan, DeskYoga]
  {
    FilterCatalog(PreventionEntry);
    assert !PreventionEntry(DeepBreathing) && PreventionEntry(BoxBreathing);
    assert !PreventionEntry(MindfulPause) && PreventionEntry(BodyScan);
    assert !PreventionEntry(QuickStretch) && PreventionEntry(DeskYoga);
  }

  /** The calming filter picks Deep Breathing alone. */
  lemma CalmingFilter()
    ensures Filter(Catalog, CalmingEntry) == [DeepBreathing]
  {
    FilterCatalog(CalmingEntry);
    assert CalmingEntry(DeepBreathing) && !CalmingEntry(BoxBreathing) && !CalmingEntry(MindfulPause);
    assert !CalmingEntry(BodyScan) && !CalmingEntry(QuickStretch) && !CalmingEntry(DeskYoga);
  }

  lemma TierFilters()
    ensures Filter(Catalog, ReliefEntry) == [DeepBreathing, MindfulPause, QuickStretch]
    ensures Filter(Catalog, MixedEntry) == Catalog
    ensures Filter(Catalog, PreventionEntry) == [BoxBreathing, BodyScan, DeskYoga]
    ensures Filter(Catalog, CalmingEntry) == [DeepBreathing]
  {
    ReliefFilter();
    MixedFilter();
    PreventionFilter();
    CalmingFilter();
  }

  /** No indicator defined: the average is 0 and the low tier applies. */
  lemma NoIndicatorsGivesLowTier(ind: StressIndicators)
    requires ind.facialStress.None? && ind.typingStress.None? && ind.voiceStress.None?
    ensures AverageStress(ind) == 0.0 && TierOf(AverageStress(ind)) == LowStress
    ensures !LowSentiment(ind) ==> GetPersonalizedRecommendations(ind) == [BoxBreathing, BodyScan]
  {
    TierFilters();
  }

  /** Above 70 with no low sentiment: at most two short, low-intensity entries. */
  lemma HighTierGivesRelief(ind: StressIndicators)
    requires AverageStress(ind) > 70.0 && !LowSentiment(ind)
    ensures var r := GetPersonalizedRecommendations(ind);
      |r| <= 2 && (forall x :: x in r ==> x.intensity == Low && x.duration <= 5)
      && r == [DeepBreathing, MindfulPause]
  {
    TierFilters();
  }

  /** In (40, 70]: at most three entries, each medium or at most ten minutes. */
  lemma ModerateTierGivesMix(ind: StressIndicators)
    requires 40.0 < AverageStress(ind) <= 70.0 && !LowSentiment(ind)
    ensures var r := GetPersonalizedRecommendations(ind);
      |r| <= 3 && (forall x :: x in r ==> x.intensity == Medium || x.duration <= 10)
      && r == [DeepBreathing, BoxBreathing, MindfulPause]
  {
    TierFilters();
  }

  /** At most 40: at most two medium entries of ten minutes or more. */
  lemma LowTierGivesPrevention(ind: StressIndicators)
    requires AverageStress(ind) <= 40.0 && !LowSentiment(ind)
    ensures var r := GetPersonalizedRecommendations(ind);
      |r| <= 2 && (forall x :: x in r ==> x.intensity == Medium && x.duration >= 10)
      && r == [BoxBreathing, BodyScan]
  {
    TierFilters();
  }

  /** The thresholds are strict: 70 is moderate and 40 is low. */
  lemma TierBoundaries()
    ensures TierOf(70.0) == ModerateStress && TierOf(40.0) == LowStress
    ensures TierOf(70.5) == HighStress && TierOf(40.5) == ModerateStress
  {
  }

  /** A sentiment below 0.3 appends Deep Breathing and re-truncates to three, with
      no deduplication; any other sentiment leaves the tier's list unchanged. */
  lemma SentimentAdjustment(ind: StressIndicators)
    ensures var base := TierRecommendations(TierOf(AverageStress(ind)));
      GetPersonalizedRecommendations(ind)
        == if LowSentiment(ind) then Take(base + [DeepBreathing], 3) else base
    ensures LowSentiment(ind) && AverageStress(ind) > 70.0 ==>
      GetPersonalizedRecommendations(ind) == [DeepBreathing, MindfulPause, DeepBreathing]
    ensures LowSentiment(ind) && 40.0 < AverageStress(ind) <= 70.0 ==>
      GetPersonalizedRecommendations(ind) == [DeepBreathing, BoxBreathing, MindfulPause]
    ensures LowSentiment(ind) && AverageStress(ind) <= 40.0 ==>
      GetPersonalizedRecommendations(ind) == [BoxBreathing, BodyScan, DeepBreathing]
  {
    CalmingFilter();
    TierFilters();
  }

  /** With a low sentiment some breathing, low-intensity entry is always offered. */
  lemma LowSentimentOffersCalming(ind: StressIndicators)
    requires LowSentiment(ind)
    ensures exists x :: x in GetPersonalizedRecommendations(ind) && CalmingEntry(x)
  {
    SentimentAdjustment(ind);
    var r := GetPersonalizedRecommendations(ind);
    if AverageStress(ind) > 40.0 {
      assert r[0] == DeepBreathing;
    } else {
      assert r[2] == DeepBreathing;
    }
  }

  const HighStressText := "High stress level detected. Consider taking a break and practicing deep breathing."
  const ModerateStressText := "Moderate stress level. Try some gentle exercises or meditation."
  const LowStressText := "Stress level is manageable. Focus on maintaining good habits."

  /** The message for a stress level: one of three texts, by the bands above 70,
      above 40 and the rest. */
  function GetStressLevelDescription(stressLevel: real): (text: string)
    ensures text == HighStressText <==> stressLevel > 70.0
    ensures text == ModerateStressText <==> 40.0 < stressLevel <= 70.0
    ensures text == LowStressText <==> stressLevel <= 40.0
  {
    assert |HighStressText| != |ModerateStressText| && |HighStressText| != |LowStressText|;
    assert |ModerateStressText| != |LowStressText|;
    if stressLevel > 70.0 then HighStressText
    else if stressLevel > 40.0 then ModerateStressText
    else LowStressText
  }

  /** The descriptions follow the same strict bands as the tiers: two levels get
      the same description exactly when they fall in the same tier. */
  lemma DescriptionMatchesTier(a: real, b: real)
    ensures GetStressLevelDescription(a) == GetStressLevelDescription(b) <==> TierOf(a) == TierOf(b)
  {
    if TierOf(a) != TierOf(b) {
      assert |HighStressText| != |ModerateStressText| && |HighStressText| != |LowStressText|;
      assert |ModerateStressText| != |LowStressText|;
    }
  }
}
