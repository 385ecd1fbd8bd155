/**
 * src/components/Dashboard.jsx: the "Hh Mm" duration text of the history
 * list, the score-band styling of a past test, the leaderboard medals, and
 * the test configuration dialog — its presets, the clamped custom inputs
 * and the hand-off of the chosen values to `onStartTest`.
 */
module Dashboard {
  import opened Wrappers
  import opened JsText
  import Navigation

  // ----- `formatTime` -----

  /** The text for whole hours and minutes: the hours part only when there are hours. */
  function DurationText(hours: nat, minutes: nat): (r: string)
    ensures hours > 0 <==> 'h' in r
    ensures |r| > 0 && r[|r| - 1] == 'm'
  {
    DigitsHaveNoSeparator(DecimalString(minutes), 'h');
    if hours > 0 then
      DigitsHaveNoSeparator(DecimalString(hours), 'h');
      DecimalString(hours) + "h " + DecimalString(minutes) + "m"
    else
      DecimalString(minutes) + "m"
  }

  /** `formatTime(seconds)`: whole hours and minutes, "Hh Mm" from one hour on, "Mm" below. */
  function FormatDuration(seconds: nat): (r: string)
    ensures seconds >= 3600 <==> 'h' in r
    ensures |r| > 0 && r[|r| - 1] == 'm'
  {
    DurationText(seconds / 3600, (seconds % 3600) / 60)
  }

  /** Reads a duration text back as seconds: "Hh Mm" or "Mm". */
  function ParseDuration(s: string): Option<nat>
  {
    if |s| == 0 || s[|s| - 1] != 'm' then None
    else
      var body := s[..|s| - 1];
      match SplitFirst(body, 'h')
      case None => if IsField(body) then Some(FieldValue(body) * 60) else None
      case Some(p) =>
        if |p.1| > 1 && p.1[0] == ' ' && IsField(p.0) && IsField(p.1[1..])
        then Some(FieldValue(p.0) * 3600 + FieldValue(p.1[1..]) * 60)
        else None
  }

  lemma ParseHoursMinutes(hs: string, ms: string, total: nat)
    requires IsField(hs) && IsField(ms)
    requires total == FieldValue(hs) * 3600 + FieldValue(ms) * 60
    ensures ParseDuration(hs + "h " + ms + "m") == Some(total)
  {
    var s := hs + "h " + ms + "m";
    var body := s[..|s| - 1];
    assert body == hs + ['h'] + (" " + ms);
    DigitsHaveNoSeparator(hs, 'h');
    SplitFirstJoin(hs, 'h', " " + ms);
    assert (" " + ms)[1..] == ms;
  }

  lemma HoursDurationRoundTrip(h: nat, m: nat, total: nat)
    requires total == h * 3600 + m * 60
    ensures ParseDuration(DecimalString(h) + "h " + DecimalString(m) + "m") == Some(total)
  {
    DecimalStringRoundTrip(h);
    DecimalStringRoundTrip(m);
    ParseHoursMinutes(DecimalString(h), DecimalString(m), total);
  }

  lemma MinutesDurationRoundTrip(m: nat, total: nat)
    requires total == m * 60
    ensures ParseDuration(DecimalString(m) + "m") == Some(total)
  {
    var ms := DecimalString(m);
    assert (ms + "m")[..|ms|] == ms;
    DigitsHaveNoSeparator(ms, 'h');
    DecimalStringRoundTrip(m);
  }

  lemma DurationTextRoundTrip(hours: nat, minutes: nat, total: nat)
    requires total == hours * 3600 + minutes * 60
    ensures ParseDuration(DurationText(hours, minutes)) == Some(total)
  {
    if hours > 0 {
      HoursDurationRoundTrip(hours, minutes, total);
    } else {
      MinutesDurationRoundTrip(minutes, total);
    }
  }

  /** Reading the text back gives the seconds rounded down to whole minutes: leftover seconds are dropped. */
  lemma FormatDurationRoundTrip(seconds: nat)
    ensures ParseDuration(FormatDuration(seconds)) == Some(seconds - seconds % 60)
  {
    WholeMinutes(seconds);
    DurationTextRoundTrip(seconds / 3600, (seconds % 3600) / 60, seconds - seconds % 60);
  }

  /** `hours` and `minutes` are the same decomposition the countdown uses, less its seconds field. */
  lemma WholeMinutes(seconds: nat)
    ensures (seconds / 3600) * 3600 + ((seconds % 3600) / 60) * 60 == seconds - seconds % 60
    ensures (seconds % 3600) / 60 < 60
  {
    var f := Navigation.ClockOf(seconds);
    assert f.hrs == seconds / 3600 && f.mins == (seconds % 3600) / 60 && f.secs == seconds % 60;
  }

  // ----- score bands -----

  datatype Band = Good | Average | Poor

  /** The band of a past test's percentage. */
  function ScoreBand(percentage: real): (b: Band)
    ensures b == Good <==> percentage >= 70.0
    ensures b == Average <==> 50.0 <= percentage < 70.0
    ensures b == Poor <==> percentage < 50.0
  {
    if percentage >= 70.0 then Good else if percentage >= 50.0 then Average else Poor
  }

  /** The class of the score circle in the recent-tests list. */
  function CircleClass(percentage: real): (c: string)
    ensures c == "good" <==> percentage >= 70.0
    ensures c == "poor" <==> percentage < 50.0
  {
    if percentage >= 70.0 then "good" else if percentage >= 50.0 then "average" else "poor"
  }

  /** The class of the badge in the history table. */
  function BadgeClass(percentage: real): (c: string)
    ensures c == "success" <==> percentage >= 70.0
    ensures c == "danger" <==> percentage < 50.0
  {
    if percentage >= 70.0 then "success" else if percentage >= 50.0 then "warning" else "danger"
  }

  function CircleName(b: Band): string
  {
    match b
    case Good => "good"
    case Average => "average"
    case Poor => "poor"
  }

  function BadgeName(b: Band): string
  {
    match b
    case Good => "success"
    case Average => "warning"
    case Poor => "danger"
  }

  /** The circle and the badge follow the same thresholds: both name the band of the percentage. */
  lemma StylesFollowBand(percentage: real)
    ensures CircleClass(percentage) == CircleName(ScoreBand(percentage))
    ensures BadgeClass(percentage) == BadgeName(ScoreBand(percentage))
  {
  }

  // ----- leaderboard -----

  datatype RankMark = Medal(place: nat) | Plain(place: nat)

  /** The rank cell of the leaderboard row at `index`: "#place", in a medal for the first three. */
  function RankFor(index: nat): (r: RankMark)
    ensures r.place == index + 1
    ensures r.Medal? <==> 1 <= r.place <= 3
  {
    if index + 1 <= 3 then Medal(index + 1) else Plain(index + 1)
  }

  // ----- test configuration -----

  const QuestionPresets: seq<int> := [10, 20, 30, 50, 75, 100]
  const DurationPresets: seq<int> := [15, 30, 45, 60, 90, 120]

  /** The custom question count: `Math.max(1, Math.min(100, parseInt(value) || 100))`. */
  function ClampQuestionCount(input: string): (n: int)
    ensures 1 <= n <= 100
    ensures ParseInt(input) == None || ParseInt(input) == Some(0) ==> n == 100
    ensures ParseInt(input).Some? && 1 <= ParseInt(input).value <= 100 ==> n == ParseInt(input).value
    ensures ParseInt(input).Some? && ParseInt(input).value > 100 ==> n == 100
    ensures ParseInt(input).Some? && ParseInt(input).value < 0 ==> n == 1
    ensures input == "" ==> n == 100
  {
    Max(1, Min(100, ParsedOr(input, 100)))
  }

  /** The custom duration: `Math.max(5, Math.min(180, parseInt(value) || 60))`. */
  function ClampDuration(input: string): (n: int)
    ensures 5 <= n <= 180
    ensures ParseInt(input) == None || ParseInt(input) == Some(0) ==> n == 60
    ensures ParseInt(input).Some? && 5 <= ParseInt(input).value <= 180 ==> n == ParseInt(input).value
    ensures ParseInt(input).Some? && ParseInt(input).value > 180 ==> n == 180
    ensures ParseInt(input).Some? && ParseInt(input).value != 0 && ParseInt(input).value < 5 ==> n == 5
    ensures input == "" ==> n == 60
  {
    Max(5, Min(180, ParsedOr(input, 60)))
  }

  /** The dialog's values: `numQuestions`, `testDuration` (minutes) and whether it is open. */
  datatype TestConfig = TestConfig(numQuestions: int, testDuration: int, open: bool)

  predicate ValidConfig(c: TestConfig)
  {
    1 <= c.numQuestions <= 100 && 5 <= c.testDuration <= 180
  }

  function InitialConfig(): (c: TestConfig)
    ensures ValidConfig(c) && !c.open
  {
    TestConfig(100, 60, false)
  }

  /** Typing a count already in range gives it back unchanged. */
  lemma TypedCountInRange(n: nat)
    requires 1 <= n <= 100
    ensures ClampQuestionCount(DecimalString(n)) == n
  {
    ParseIntDecimal(n, []);
    assert DecimalString(n) + [] == DecimalString(n);
  }

  /** Typing a duration already in range gives it back unchanged. */
  lemma TypedDurationInRange(m: nat)
    requires 5 <= m <= 180
    ensures ClampDuration(DecimalString(m)) == m
  {
    ParseIntDecimal(m, []);
    assert DecimalString(m) + [] == DecimalString(m);
  }

  /** Every preset lies in the range of its input, and typing a preset gives it back unchanged. */
  lemma PresetsInRange()
    ensures forall n :: n in QuestionPresets ==> 1 <= n <= 100 && ClampQuestionCount(DecimalString(n)) == n
    ensures forall m :: m in DurationPresets ==> 5 <= m <= 180 && ClampDuration(DecimalString(m)) == m
  {
    forall n | n in QuestionPresets
      ensures 1 <= n <= 100 && ClampQuestionCount(DecimalString(n)) == n
    {
      TypedCountInRange(n);
    }
    forall m | m in DurationPresets
      ensures 5 <= m <= 180 && ClampDuration(DecimalString(m)) == m
    {
      TypedDurationInRange(m);
    }
  }

  /** One user action in the dialog. */
  datatype ConfigAction =
    | OpenDialog
    | PickQuestions(preset: nat)
    | TypeQuestions(input: string)
    | PickDuration(preset: nat)
    | TypeDuration(input: string)
    | Cancel

  /** The dialog after an action; a preset index outside the list picks nothing. */
  function Apply(c: TestConfig, a: ConfigAction): (d: TestConfig)
    ensures ValidConfig(c) ==> ValidConfig(d)
  {
    assert forall n :: n in QuestionPresets ==> 1 <= n <= 100;
    assert forall m :: m in DurationPresets ==> 5 <= m <= 180;
    match a
    case OpenDialog => c.(open := true)
    case PickQuestions(i) => if i < |QuestionPresets| then c.(numQuestions := QuestionPresets[i]) else c
    case TypeQuestions(input) => c.(numQuestions := ClampQuestionCount(input))
    case PickDuration(i) => if i < |DurationPresets| then c.(testDuration := DurationPresets[i]) else c
    case TypeDuration(input) => c.(testDuration := ClampDuration(input))
    case Cancel => c.(open := false)
  }

  /** The dialog's values after a run of actions from the initial ones. */
  function ApplyAll(actions: seq<ConfigAction>): (c: TestConfig)
    ensures ValidConfig(c)
  {
    if actions == [] then InitialConfig() else Apply(ApplyAll(actions[..|actions| - 1]), actions[|actions| - 1])
  }

  /**
   * The Start Test button: the dialog closes and `onStartTest(testDuration,
   * numQuestions)` receives the chosen values unchanged.
   */
  function StartTest(c: TestConfig): (r: (TestConfig, (int, int)))
    ensures !r.0.open
    ensures r.1 == (c.testDuration, c.numQuestions)
    ensures ValidConfig(c) ==> 5 <= r.1.0 <= 180 && 1 <= r.1.1 <= 100
  {
    (c.(open := false), (c.testDuration, c.numQuestions))
  }

  /** Whatever the user did in the dialog, Start Test hands over a duration in 5..180 and a count in 1..100. */
  lemma StartedValuesInRange(actions: seq<ConfigAction>)
    ensures 5 <= StartTest(ApplyAll(actions)).1.0 <= 180
    ensures 1 <= StartTest(ApplyAll(actions)).1.1 <= 100
  {
  }
}
