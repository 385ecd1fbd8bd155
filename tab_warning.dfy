/**
 * src/components/TabWarning.jsx: the overlay shown after a tab switch that
 * did not yet reach the limit — the "warning N of M" headline, one dot per
 * allowed warning, and the remaining-count or last-warning notice.
 */
module TabWarning {
  import opened Wrappers
  import opened JsText

  /** `remaining`: the warnings still allowed before the auto-submit. */
  function Remaining(maxWarnings: int, warningCount: int): (r: int)
    ensures warningCount + r == maxWarnings
    ensures r > 0 <==> warningCount < maxWarnings
  {
    maxWarnings - warningCount
  }

  const HeadlinePrefix := "warning "

  /** The headline "warning {warningCount} of {maxWarnings}": the count is the first number in it. */
  function Headline(warningCount: nat, maxWarnings: nat): (r: string)
    ensures |r| > |HeadlinePrefix| && r[..|HeadlinePrefix|] == HeadlinePrefix
    ensures ParseInt(r[|HeadlinePrefix|..]) == Some(warningCount)
  {
    var tail := DecimalString(warningCount) + (" of " + DecimalString(maxWarnings));
    ParseIntDecimal(warningCount, " of " + DecimalString(maxWarnings));
    assert (HeadlinePrefix + tail)[|HeadlinePrefix|..] == tail;
    HeadlinePrefix + tail
  }

  /** The dots of `Array.from({ length: maxWarnings }, ...)`: `true` for a dot drawn as used. */
  function WarningDots(maxWarnings: nat, warningCount: int): (dots: seq<bool>)
    ensures |dots| == maxWarnings
    ensures forall i :: 0 <= i < maxWarnings ==> (dots[i] <==> i < warningCount)
  {
    seq(maxWarnings, i => i < warningCount)
  }

  /** Number of dots drawn as used. */
  function UsedDots(dots: seq<bool>): (n: nat)
    ensures n <= |dots|
  {
    if dots == [] then 0 else UsedDots(dots[..|dots| - 1]) + (if dots[|dots| - 1] then 1 else 0)
  }

  lemma {:induction false} UsedDotsPrefix(maxWarnings: nat, warningCount: nat, k: nat)
    requires k <= maxWarnings
    ensures UsedDots(WarningDots(maxWarnings, warningCount)[..k]) == Min(warningCount, k)
  {
    var dots := WarningDots(maxWarnings, warningCount);
    if k > 0 {
      UsedDotsPrefix(maxWarnings, warningCount, k - 1);
      assert dots[..k][..k - 1] == dots[..k - 1];
    }
  }

  /** For a non-negative count, as many dots are used as warnings were given, up to the number of dots. */
  lemma UsedDotsCount(maxWarnings: nat, warningCount: nat)
    ensures UsedDots(WarningDots(maxWarnings, warningCount)) == Min(warningCount, maxWarnings)
  {
    var dots := WarningDots(maxWarnings, warningCount);
    UsedDotsPrefix(maxWarnings, warningCount, maxWarnings);
    assert dots[..maxWarnings] == dots;
  }

  /** The notice under the dots. */
  datatype Notice = RemainingNotice(count: nat, plural: bool) | LastWarning

  /** Which notice is shown: the remaining count while some remain, the last-warning text otherwise. */
  function NoticeFor(maxWarnings: int, warningCount: int): (n: Notice)
    ensures n.RemainingNotice? <==> warningCount < maxWarnings
    ensures n.RemainingNotice? ==> n.count == maxWarnings - warningCount
    ensures n.RemainingNotice? ==> (n.plural <==> maxWarnings - warningCount > 1)
  {
    var remaining := Remaining(maxWarnings, warningCount);
    if remaining > 0 then RemainingNotice(remaining, remaining > 1) else LastWarning
  }

  const AutoSubmitSentence := " remaining. After that, your test will be auto-submitted."
  const LastWarningText := "This was your last warning! Your test is being submitted now..."

  /** The text of a notice; a remaining notice starts with the number it announces. */
  function NoticeText(n: Notice): (r: string)
    ensures n.LastWarning? <==> r == LastWarningText
    ensures n.RemainingNotice? ==> ParseInt(r) == Some(n.count)
  {
    match n
    case LastWarning => LastWarningText
    case RemainingNotice(count, plural) =>
      var rest := (if plural then " warnings" else " warning") + AutoSubmitSentence;
      ParseIntDecimal(count, rest);
      DecimalString(count) + rest
  }

  /** With three allowed warnings, the first warning leaves two and the second leaves one. */
  lemma ThreeWarningTexts()
    ensures NoticeText(NoticeFor(3, 1)) == "2 warnings" + AutoSubmitSentence
    ensures NoticeText(NoticeFor(3, 2)) == "1 warning" + AutoSubmitSentence
    ensures NoticeText(NoticeFor(3, 3)) == LastWarningText
  {
    assert NoticeFor(3, 1) == RemainingNotice(2, true);
    assert DecimalString(2) == "2";
    assert "2" + (" warnings" + AutoSubmitSentence) == "2 warnings" + AutoSubmitSentence;
    assert NoticeFor(3, 2) == RemainingNotice(1, false);
    assert DecimalString(1) == "1";
    assert "1" + (" warning" + AutoSubmitSentence) == "1 warning" + AutoSubmitSentence;
  }
}
