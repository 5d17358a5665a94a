/** The stress dashboard: the latest value of each detector channel, a 24-hour
    history of snapshots, the weighted overall score and its bands. */
module StressDetection {
  import opened Numeric
  import opened Sequences

  /** Timestamps are milliseconds since the epoch. */
  datatype StressData = StressData(facial: real, typing: real, voice: real, timestamp: int)

  datatype Channel = Facial | Typing | Voice

  const DayMs: int := 24 * 60 * 60 * 1000

  /** The initial snapshot: every channel 0. */
  function Initial(now: int): (d: StressData)
    ensures Overall(d) == 0.0 && d.timestamp == now
  {
    StressData(0.0, 0.0, 0.0, now)
  }

  /** `calculateOverallStress` (and the history rows): facial weighs 0.4, typing
      and voice 0.3 each. The weights add up to 1, so the result is a weighted
      mean of the three channels; nothing clamps it. */
  function Overall(d: StressData): (r: real)
    ensures Min(d.facial, Min(d.typing, d.voice)) <= r <= Max(d.facial, Max(d.typing, d.voice))
  {
    d.facial * 0.4 + d.typing * 0.3 + d.voice * 0.3
  }

  /** Channels that are percentages give a percentage. */
  lemma OverallIsPercentage(d: StressData)
    requires 0.0 <= d.facial <= 100.0 && 0.0 <= d.typing <= 100.0 && 0.0 <= d.voice <= 100.0
    ensures 0.0 <= Overall(d) <= 100.0
  {
  }

  lemma OverallExamples()
    ensures Overall(StressData(100.0, 0.0, 0.0, 0)) == 40.0
    ensures Overall(StressData(80.0, 50.0, 20.0, 0)) == 53.0
    ensures Overall(StressData(200.0, 0.0, 0.0, 0)) == 80.0
    ensures Overall(StressData(0.0, 200.0, 200.0, 0)) == 120.0
  {
  }

  /** `{...prev, [type]: value, timestamp: now}`. */
  function WithChannel(d: StressData, ch: Channel, value: real, now: int): (e: StressData)
    ensures e.timestamp == now
    ensures e.facial == (if ch == Facial then value else d.facial)
    ensures e.typing == (if ch == Typing then value else d.typing)
    ensures e.voice == (if ch == Voice then value else d.voice)
  {
    match ch
    case Facial => d.(facial := value, timestamp := now)
    case Typing => d.(typing := value, timestamp := now)
    case Voice => d.(voice := value, timestamp := now)
  }

  /** The overall score moves by the channel's weight times the change. */
  lemma WithChannelShiftsOverall(d: StressData, ch: Channel, value: real, now: int)
    ensures Overall(WithChannel(d, ch, value, now)) - Overall(d) ==
      (match ch
       case Facial => 0.4 * (value - d.facial)
       case Typing => 0.3 * (value - d.typing)
       case Voice => 0.3 * (value - d.voice))
  {
  }

  predicate NewerThan(d: StressData, cutoff: int)
  {
    d.timestamp > cutoff
  }

  /** `history.filter(data => data.timestamp > cutoff)`. */
  function KeepNewerThan(history: seq<StressData>, cutoff: int): (r: seq<StressData>)
    ensures |r| <= |history|
  {
    Filter(history, d => NewerThan(d, cutoff))
  }

  /** The filter keeps exactly the snapshots newer than the cutoff. */
  lemma KeepNewerThanMembers(history: seq<StressData>, cutoff: int)
    ensures forall d :: d in KeepNewerThan(history, cutoff) <==> d in history && d.timestamp > cutoff
  {
    FilterMembers(history, d => NewerThan(d, cutoff));
  }

  /** Filtering after appending one snapshot: the snapshot ends the result
      exactly when it is newer than the cutoff. */
  lemma {:induction false} KeepNewerThanAppend(history: seq<StressData>, d: StressData, cutoff: int)
    ensures KeepNewerThan(history + [d], cutoff) ==
      KeepNewerThan(history, cutoff) + (if d.timestamp > cutoff then [d] else [])
  {
    if history == [] {
      assert history + [d] == [d];
      assert [d][1..] == [];
    } else {
      assert (history + [d])[0] == history[0];
      assert (history + [d])[1..] == history[1..] + [d];
      KeepNewerThanAppend(history[1..], d, cutoff);
    }
  }

  /** Filtering twice with the same cutoff changes nothing the second time. */
  lemma {:induction false} KeepNewerThanIdempotent(history: seq<StressData>, cutoff: int)
    ensures KeepNewerThan(KeepNewerThan(history, cutoff), cutoff) == KeepNewerThan(history, cutoff)
  {
    if history != [] {
      KeepNewerThanIdempotent(history[1..], cutoff);
    }
  }

  datatype Band = LowBand | MediumBand | HighBand | VeryHighBand

  /** The rank of a band, lowest first. */
  function Rank(b: Band): nat
  {
    match b
    case LowBand => 0
    case MediumBand => 1
    case HighBand => 2
    case VeryHighBand => 3
  }

  /** The bands both `getStressLevel` and `getStressColor` use. */
  function BandOf(stress: real): (b: Band)
    ensures b == LowBand <==> stress < 30.0
    ensures b == MediumBand <==> 30.0 <= stress < 60.0
    ensures b == HighBand <==> 60.0 <= stress < 80.0
    ensures b == VeryHighBand <==> 80.0 <= stress
  {
    if stress < 30.0 then LowBand
    else if stress < 60.0 then MediumBand
    else if stress < 80.0 then HighBand
    else VeryHighBand
  }

  /** A higher stress value never falls in a lower band. */
  lemma BandMonotone(x: real, y: real)
    requires x <= y
    ensures Rank(BandOf(x)) <= Rank(BandOf(y))
  {
  }

  /** `getStressLevel`. */
  function GetStressLevel(stress: real): (s: string)
    ensures s == "Low" <==> BandOf(stress) == LowBand
    ensures s == "Medium" <==> BandOf(stress) == MediumBand
    ensures s == "High" <==> BandOf(stress) == HighBand
    ensures s == "Very High" <==> BandOf(stress) == VeryHighBand
  {
    if stress < 30.0 then "Low"
    else if stress < 60.0 then "Medium"
    else if stress < 80.0 then "High"
    else "Very High"
  }

  /** `getStressColor`. */
  function GetStressColor(stress: real): (s: string)
    ensures s == "bg-green-500" <==> BandOf(stress) == LowBand
    ensures s == "bg-yellow-500" <==> BandOf(stress) == MediumBand
    ensures s == "bg-orange-500" <==> BandOf(stress) == HighBand
    ensures s == "bg-red-500" <==> BandOf(stress) == VeryHighBand
  {
    if stress < 30.0 then "bg-green-500"
    else if stress < 60.0 then "bg-yellow-500"
    else if stress < 80.0 then "bg-orange-500"
    else "bg-red-500"
  }

  /** Level and colour always agree: two values share a label exactly when they
      share a colour. */
  lemma LevelAndColorAgree(x: real, y: real)
    ensures GetStressLevel(x) == GetStressLevel(y) <==> GetStressColor(x) == GetStressColor(y)
  {
    assert GetStressLevel(x) == GetStressLevel(y) <==> BandOf(x) == BandOf(y);
    assert GetStressColor(x) == GetStressColor(y) <==> BandOf(x) == BandOf(y);
  }

  /** One row of the history panel: the time and the level of the snapshot. */
  datatype HistoryRow = HistoryRow(timestamp: int, level: string, color: string)

  /** The history panel: the last five snapshots, each scored with the same
      weights as the current value. */
  function HistoryRows(history: seq<StressData>): (rows: seq<HistoryRow>)
    ensures |rows| == if |history| <= 5 then |history| else 5
    ensures forall i :: 0 <= i < |rows| ==>
      var d := history[|history| - |rows| + i];
      rows[i] == HistoryRow(d.timestamp, GetStressLevel(Overall(d)), GetStressColor(Overall(d)))
  {
    var shown := TakeLast(history, 5);
    seq(|shown|, i requires 0 <= i < |shown| =>
      HistoryRow(shown[i].timestamp, GetStressLevel(Overall(shown[i])), GetStressColor(Overall(shown[i]))))
  }

  class Dashboard {
    var currentStress: StressData
    var stressHistory: seq<StressData>

    constructor (now: int)
      ensures currentStress == Initial(now) && stressHistory == []
    {
      currentStress := Initial(now);
      stressHistory := [];
    }

    /** `handleStressChange(type, value)`: `stampTime` is the `Date.now()` read
        for the snapshot, `filterTime` the one read for the 24-hour cutoff. */
    method HandleStressChange(ch: Channel, value: real, stampTime: int, filterTime: int)
      modifies this
      ensures currentStress == WithChannel(old(currentStress), ch, value, stampTime)
      ensures stressHistory == KeepNewerThan(old(stressHistory) + [currentStress], filterTime - DayMs)
    {
      var newStress := WithChannel(currentStress, ch, value, stampTime);
      stressHistory := KeepNewerThan(stressHistory + [newStress], filterTime - DayMs);
      currentStress := newStress;
    }

    /** The overall score shown for the current snapshot. */
    function CurrentOverall(): (r: real)
      reads this
      ensures (0.0 <= currentStress.facial <= 100.0 && 0.0 <= currentStress.typing <= 100.0
               && 0.0 <= currentStress.voice <= 100.0) ==> 0.0 <= r <= 100.0
    {
      Overall(currentStress)
    }
  }

  /** After a change read within a day of its snapshot time, the history holds
      only snapshots from the last 24 hours and ends with the new snapshot. */
  lemma ChangeKeepsRecentHistory(history: seq<StressData>, d: StressData, ch: Channel,
                                 value: real, stampTime: int, filterTime: int)
    requires filterTime - DayMs < stampTime
    ensures var e := WithChannel(d, ch, value, stampTime);
      var h := KeepNewerThan(history + [e], filterTime - DayMs);
      |h| > 0 && h[|h| - 1] == e
      && h[..|h| - 1] == KeepNewerThan(history, filterTime - DayMs)
      && forall x :: x in h ==> x.timestamp > filterTime - DayMs
  {
    var e := WithChannel(d, ch, value, stampTime);
    KeepNewerThanAppend(history, e, filterTime - DayMs);
    KeepNewerThanMembers(history + [e], filterTime - DayMs);
  }
}
