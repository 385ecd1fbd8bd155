/**
 * src/components/Navigation.jsx: the countdown clock text, the low/critical
 * time flags and which of the Prev / Next / Submit controls are shown and
 * enabled.
 */
module Navigation {
  import opened Wrappers
  import opened JsText

  datatype ClockFields = ClockFields(hrs: nat, mins: nat, secs: nat)

  /** The hours, minutes and seconds `formatTime` shows for `seconds`. */
  function ClockOf(seconds: nat): (f: ClockFields)
    ensures f.hrs * 3600 + f.mins * 60 + f.secs == seconds
    ensures f.mins < 60 && f.secs < 60
  {
    var rest := seconds % 3600;
    assert seconds % 60 == rest % 60 by {
      assert seconds == (seconds / 3600) * 3600 + rest;
      assert (seconds / 3600) * 3600 == ((seconds / 3600) * 60) * 60;
      ModOfMultiplePlus((seconds / 3600) * 60, rest);
    }
    ClockFields(seconds / 3600, rest / 60, seconds % 60)
  }

  lemma ModOfMultiplePlus(k: nat, r: nat)
    ensures (k * 60 + r) % 60 == r % 60
  {
  }

  /** The clock text for given fields: the hours field only when there are hours. */
  function ClockText(f: ClockFields): (r: string)
    requires f.mins < 60 && f.secs < 60
    ensures f.hrs == 0 ==> |r| == 5
    ensures 0 < f.hrs < 100 ==> |r| == 8
    ensures f.hrs > 0 ==> |r| >= 8
  {
    if f.hrs > 0 then TwoDigits(f.hrs) + ":" + TwoDigits(f.mins) + ":" + TwoDigits(f.secs)
    else TwoDigits(f.mins) + ":" + TwoDigits(f.secs)
  }

  /** `formatTime`: "MM:SS" below one hour, "HH:MM:SS" from one hour on. */
  function FormatClock(seconds: nat): (r: string)
    ensures seconds < 3600 ==> |r| == 5
    ensures 3600 <= seconds < 360000 ==> |r| == 8
    ensures seconds >= 3600 ==> |r| >= 8
  {
    ClockText(ClockOf(seconds))
  }

  /** Reads a clock text back: two or three colon-separated digit fields. */
  function ParseClock(s: string): Option<nat>
  {
    match SplitFirst(s, ':')
    case None => None
    case Some(p) =>
      match SplitFirst(p.1, ':')
      case None =>
        if IsField(p.0) && IsField(p.1) then Some(FieldValue(p.0) * 60 + FieldValue(p.1)) else None
      case Some(q) =>
        if IsField(p.0) && IsField(q.0) && IsField(q.1)
        then Some(FieldValue(p.0) * 3600 + FieldValue(q.0) * 60 + FieldValue(q.1))
        else None
  }

  lemma ParseTwoFields(m: string, s: string, total: nat)
    requires IsField(m) && IsField(s)
    requires total == FieldValue(m) * 60 + FieldValue(s)
    ensures ParseClock(m + ":" + s) == Some(total)
  {
    DigitsHaveNoSeparator(m, ':');
    DigitsHaveNoSeparator(s, ':');
    SplitFirstJoin(m, ':', s);
  }

  lemma ParseThreeFields(h: string, m: string, s: string, total: nat)
    requires IsField(h) && IsField(m) && IsField(s)
    requires total == FieldValue(h) * 3600 + FieldValue(m) * 60 + FieldValue(s)
    ensures ParseClock(h + ":" + m + ":" + s) == Some(total)
  {
    DigitsHaveNoSeparator(h, ':');
    DigitsHaveNoSeparator(m, ':');
    assert h + ":" + m + ":" + s == h + [':'] + (m + [':'] + s);
    SplitFirstJoin(h, ':', m + [':'] + s);
    SplitFirstJoin(m, ':', s);
  }

  lemma HoursClockRoundTrip(f: ClockFields, total: nat)
    requires f.mins < 60 && f.secs < 60 && f.hrs > 0
    requires total == f.hrs * 3600 + f.mins * 60 + f.secs
    ensures ParseClock(ClockText(f)) == Some(total)
  {
    var h, m, s := TwoDigits(f.hrs), TwoDigits(f.mins), TwoDigits(f.secs);
    assert ClockText(f) == h + ":" + m + ":" + s;
    TwoDigitsRoundTrip(f.hrs);
    TwoDigitsRoundTrip(f.mins);
    TwoDigitsRoundTrip(f.secs);
    ParseThreeFields(h, m, s, total);
  }

  lemma MinutesClockRoundTrip(f: ClockFields, total: nat)
    requires f.mins < 60 && f.secs < 60 && f.hrs == 0
    requires total == f.mins * 60 + f.secs
    ensures ParseClock(ClockText(f)) == Some(total)
  {
    var m, s := TwoDigits(f.mins), TwoDigits(f.secs);
    assert ClockText(f) == m + ":" + s;
    TwoDigitsRoundTrip(f.mins);
    TwoDigitsRoundTrip(f.secs);
    ParseTwoFields(m, s, total);
  }

  lemma ClockTextRoundTrip(f: ClockFields, total: nat)
    requires f.mins < 60 && f.secs < 60
    requires total == f.hrs * 3600 + f.mins * 60 + f.secs
    ensures ParseClock(ClockText(f)) == Some(total)
  {
    if f.hrs > 0 {
      HoursClockRoundTrip(f, total);
    } else {
      MinutesClockRoundTrip(f, total);
    }
  }

  /** Reading the clock text back gives the seconds it was made from. */
  lemma FormatClockRoundTrip(seconds: nat)
    ensures ParseClock(FormatClock(seconds)) == Some(seconds)
  {
    ClockTextRoundTrip(ClockOf(seconds), seconds);
  }

  /** The timer turns to its warning style at five minutes left: once the clock reads 05:00 or less. */
  predicate IsLowTime(timeRemaining: int)
    ensures 0 <= timeRemaining ==>
              (IsLowTime(timeRemaining) <==>
                 var f := ClockOf(timeRemaining); f.hrs == 0 && (f.mins < 5 || (f.mins == 5 && f.secs == 0)))
  {
    timeRemaining <= 300
  }

  /** The timer turns to its critical style at one minute left: once the clock reads 01:00 or less. */
  predicate IsCriticalTime(timeRemaining: int)
    ensures 0 <= timeRemaining ==>
              (IsCriticalTime(timeRemaining) <==>
                 var f := ClockOf(timeRemaining); f.hrs == 0 && (f.mins < 1 || (f.mins == 1 && f.secs == 0)))
  {
    timeRemaining <= 60
  }

  lemma CriticalIsLow(timeRemaining: int)
    ensures IsCriticalTime(timeRemaining) ==> IsLowTime(timeRemaining)
    ensures IsLowTime(300) && !IsLowTime(301) && IsCriticalTime(60) && !IsCriticalTime(61)
  {
  }

  /** The control right of Prev: Next (possibly disabled) before the last question, Submit on it. */
  datatype Forward = NextButton(disabled: bool) | SubmitButton

  datatype Buttons = Buttons(prevDisabled: bool, forward: Forward)

  /** The navigation buttons for question `currentQuestion` of `totalQuestions`. */
  function NavButtons(currentQuestion: int, totalQuestions: int, hasAnswer: bool): (b: Buttons)
    ensures b.prevDisabled <==> currentQuestion == 0
    ensures b.forward.SubmitButton? <==> currentQuestion >= totalQuestions - 1
    ensures b.forward == NextButton(false) <==> currentQuestion < totalQuestions - 1 && hasAnswer
  {
    Buttons(currentQuestion == 0,
            if currentQuestion < totalQuestions - 1 then NextButton(!hasAnswer) else SubmitButton)
  }
}
