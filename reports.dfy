/** The reports page: the `Hh Mm` duration formatter and the average-duration
    label. Its stats object and its calculateStreak are the same code as the
    session service's and are modelled once, in SessionStats. */
module Reports {
  import opened Wrappers
  import opened Numeric
  import opened Digits
  import SessionStats

  /** formatDuration: "Hh Mm" when there is at least one hour, "Mm" otherwise,
      with the minutes below 60. Parsing the label back gives the minutes, and
      `LabelsAreExactlyFormatted` shows that no other text parses to them. */
  function FormatDuration(minutes: nat): (text: string)
    ensures ParseDuration(text) == Some(minutes)
  {
    var (hours, mins) := SplitSixty(minutes);
    var h := NatToString(hours);
    var m := NatToString(mins);
    NatToStringRoundTrip(hours);
    NatToStringRoundTrip(mins);
    if hours > 0 then
      ParseHoursAndMinutes(h, m);
      h + "h " + m + "m"
    else
      ParseMinutesOnly(m);
      m + "m"
  }

  /** Reads a label as formatDuration prints it back into minutes: "Mm" with
      M below 60, or "Hh Mm" with H at least 1 and M below 60, each number
      written without leading zeros. Any other text is None. */
  function ParseDuration(t: string): Option<nat>
  {
    if |t| < 2 || t[|t| - 1] != 'm' then None else ParseBody(t[..|t| - 1])
  }

  /** The label without its final "m". */
  function ParseBody(body: string): Option<nat>
  {
    var i := IndexOf(body, 'h');
    if i == |body| then ParseMinutes(body)
    else ParseHoursMinutes(body[..i], body[i + 1..])
  }

  /** The minutes part: a numeral below 60. */
  function ParseMinutes(m: string): Option<nat>
  {
    if Canonical(m) && StringToNat(m) < 60 then Some(StringToNat(m)) else None
  }

  function TotalMinutes(hours: nat, mins: nat): nat
  {
    60 * hours + mins
  }

  /** The hours before the "h", and what follows it: a space and the minutes. */
  function ParseHoursMinutes(hours: string, rest: string): Option<nat>
  {
    if Canonical(hours) && StringToNat(hours) > 0 && |rest| >= 1 && rest[0] == ' '
      && ParseMinutes(rest[1..]).Some?
    then Some(TotalMinutes(StringToNat(hours), ParseMinutes(rest[1..]).value))
    else None
  }

  /** A label ending in "m" is read through its body. */
  lemma ParseThroughBody(body: string)
    requires |body| >= 1
    ensures ParseDuration(body + "m") == ParseBody(body)
  {
    var t := body + "m";
    assert t[..|t| - 1] == body;
  }

  lemma ParseMinutesOnly(m: string)
    requires Canonical(m) && StringToNat(m) < 60
    ensures ParseDuration(m + "m") == Some(StringToNat(m))
  {
    ParseThroughBody(m);
  }

  lemma ParseHoursAndMinutes(h: string, m: string)
    requires Canonical(h) && StringToNat(h) > 0 && Canonical(m) && StringToNat(m) < 60
    ensures ParseDuration(h + "h " + m + "m") == Some(TotalMinutes(StringToNat(h), StringToNat(m)))
  {
    var rest := " " + m;
    SpacedMinutes(h, m);
    SplitAtHour(h, rest);
    ParseThroughBody(h + ['h'] + rest);
    assert h + "h " + m + "m" == h + ['h'] + rest + "m";
  }

  lemma SpacedMinutes(h: string, m: string)
    requires Canonical(h) && StringToNat(h) > 0 && Canonical(m) && StringToNat(m) < 60
    ensures ParseHoursMinutes(h, " " + m) == Some(TotalMinutes(StringToNat(h), StringToNat(m)))
  {
    assert (" " + m)[1..] == m;
  }

  /** A body whose digits run up to an "h" splits there. */
  lemma SplitAtHour(h: string, rest: string)
    requires AllDigits(h)
    ensures ParseBody(h + ['h'] + rest) == ParseHoursMinutes(h, rest)
  {
    var body := h + ['h'] + rest;
    IndexAfterDigits(h, 'h', rest);
    assert body[..|h|] == h && body[|h| + 1..] == rest;
  }

  /** The labels are exactly the formatted durations: a text parses to `n`
      if and only if it is what formatDuration prints for `n`. */
  lemma LabelsAreExactlyFormatted(t: string, n: nat)
    ensures ParseDuration(t) == Some(n) <==> t == FormatDuration(n)
  {
    if ParseDuration(t) == Some(n) {
      var body := t[..|t| - 1];
      assert t == body + "m";
      var i := IndexOf(body, 'h');
      if i == |body| {
        MinutesLabelIsFormatted(body, n);
      } else {
        HoursLabelIsFormatted(body[..i], body[i + 1..], n);
        assert body == body[..i] + "h" + body[i + 1..];
      }
    }
  }

  lemma MinutesLabelIsFormatted(body: string, n: nat)
    requires ParseMinutes(body) == Some(n)
    ensures body + "m" == FormatDuration(n)
  {
    CanonicalRoundTrip(body);
    assert SplitSixty(n) == (0, n);
  }

  lemma HoursLabelIsFormatted(hs: string, rest: string, n: nat)
    requires ParseHoursMinutes(hs, rest) == Some(n)
    ensures hs + "h" + rest + "m" == FormatDuration(n)
  {
    var ms := rest[1..];
    CanonicalRoundTrip(hs);
    CanonicalRoundTrip(ms);
    assert SplitSixty(n) == (StringToNat(hs), StringToNat(ms));
    assert rest == " " + ms;
    assert hs + "h" + rest + "m" == hs + "h " + ms + "m";
  }

  /** The two labels the page shows for 75 and 45 minutes. */
  lemma FormatDurationExamples()
    ensures FormatDuration(75) == "1h 15m"
    ensures FormatDuration(45) == "45m"
    ensures FormatDuration(60) == "1h 0m"
  {
    FormatsOneHourFifteen();
    FormatsFortyFive();
    FormatsOneHour();
  }

  lemma FormatsOneHourFifteen()
    ensures FormatDuration(75) == "1h 15m"
  {
    assert SplitSixty(75) == (1, 15);
    assert NatToString(1) == "1" && NatToString(15) == "15";
  }

  lemma FormatsFortyFive()
    ensures FormatDuration(45) == "45m"
  {
    assert SplitSixty(45) == (0, 45);
    assert NatToString(45) == "45";
  }

  lemma FormatsOneHour()
    ensures FormatDuration(60) == "1h 0m"
  {
    assert SplitSixty(60) == (1, 0);
    assert NatToString(1) == "1" && NatToString(0) == "0";
  }

  /** The average-duration card: the rounded average, or "0m" while no stats exist. */
  function AverageDurationLabel(stats: Option<SessionStats.MeditationStats>): (text: string)
    requires stats.Some? ==> stats.value.averageDuration >= 0.0
    ensures stats.None? ==> text == "0m"
    ensures stats.Some? ==> ParseDuration(text) == Some(Round(stats.value.averageDuration) as nat)
  {
    if stats.Some? then
      var minutes := Round(stats.value.averageDuration);
      FormatDuration(minutes)
    else
      "0m"
  }
}
