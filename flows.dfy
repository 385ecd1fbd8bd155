/**
 * Whole attempts driven through `Session.TestSession` the way the browser
 * drives `App`: the dashboard hands over its values, the countdown runs
 * out, the tab is switched, the user steps through the questions.  Each
 * method starts from a fresh session and states what the user ends up seeing
 * and what was handed to `saveScore`.
 */
module Flows {
  import opened Wrappers
  import opened Shuffle
  import opened Scoring
  import opened Session
  import Navigation
  import Dashboard
  import TabWarning
  import ScoresRoute

  /** The values Start Test hands over set the clock to the chosen minutes and pick the chosen count. */
  method StartFromDashboard(bank: seq<Question>, picks: seq<nat>, actions: seq<Dashboard.ConfigAction>)
    returns (screen: Screen, timeRemaining: int, questionCount: nat)
    requires |picks| == |bank|
    ensures screen == TestScreen
    ensures 300 <= timeRemaining <= 10800 && timeRemaining % 60 == 0
    ensures timeRemaining == Dashboard.ApplyAll(actions).testDuration * 60
    ensures questionCount == Min(Dashboard.ApplyAll(actions).numQuestions, |bank|)
  {
    var config := Dashboard.ApplyAll(actions);
    var handOff := Dashboard.StartTest(config);
    var s := new TestSession(bank, true);
    s.StartTest(handOff.1.0, handOff.1.1, picks);
    ShuffledPermutes(bank, picks);
    screen := s.CurrentScreen();
    timeRemaining := s.timeRemaining;
    questionCount := |s.questions|;
  }

  /**
   * A one-minute attempt left alone: sixty ticks empty the clock, the last
   * one schedules the auto-submit, and running it shows the results and
   * saves one report of sixty seconds with no correct answer.
   */
  method TimeRunsOut(bank: seq<Question>, picks: seq<nat>) returns (screen: Screen, saved: seq<ScoreReport>)
    requires |picks| == |bank|
    ensures screen == ResultsScreen
    ensures |saved| == 1
    ensures saved[0].timeTaken == 60 && saved[0].score == 0 && saved[0].totalQuestions == |bank|
  {
    var s := OneMinuteAttempt(bank, picks);
    RunClockDown(s);
    s.FireScheduledSubmit();
    NoAnswersScoreZero(s.questions, |s.questions|);
    screen := s.CurrentScreen();
    saved := s.reports;
  }

  /** A fresh one-minute attempt over the whole bank, nothing answered yet. */
  method OneMinuteAttempt(bank: seq<Question>, picks: seq<nat>) returns (s: TestSession)
    requires |picks| == |bank|
    ensures fresh(s) && s.Valid() && s.isAuthenticated && s.testStarted && !s.showResults
    ensures s.timeRemaining == 60 && s.pendingSubmits == 0 && s.testDuration == 1
    ensures s.answers == map[] && s.reports == [] && |s.questions| == |bank|
  {
    s := new TestSession(bank, true);
    s.StartTest(1, 0, picks);
    ShuffledPermutes(bank, picks);
  }

  /** The interval runs sixty times on an untouched one-minute attempt: the clock empties and one submit waits. */
  method RunClockDown(s: TestSession)
    requires s.Valid() && s.testStarted && !s.showResults
    requires s.timeRemaining == 60 && s.pendingSubmits == 0
    modifies s`timeRemaining, s`pendingSubmits
    ensures s.Valid() && s.timeRemaining == 0 && s.pendingSubmits == 1
  {
    var ticks := 0;
    while ticks < 60
      invariant 0 <= ticks <= 60
      invariant s.Valid() && s.testStarted && !s.showResults
      invariant s.timeRemaining == 60 - ticks
      invariant s.pendingSubmits == if ticks == 60 then 1 else 0
    {
      s.Tick();
      ticks := ticks + 1;
    }
  }

  /**
   * Tab switches during an attempt: the first two show the warning (after
   * the second, one warning remains), becoming visible again counts
   * nothing, and the third schedules the auto-submit.
   */
  method ThreeTabSwitches(bank: seq<Question>, picks: seq<nat>)
    returns (noticeAfterTwo: TabWarning.Notice, pendingAfterTwo: nat, pendingAfterThree: nat, warnings: nat)
    requires |picks| == |bank|
    ensures noticeAfterTwo == TabWarning.RemainingNotice(1, false)
    ensures pendingAfterTwo == 0 && pendingAfterThree == 1 && warnings == MaxWarnings
  {
    var s := new TestSession(bank, true);
    s.StartTest(30, 10, picks);
    assert s.MonitorAttached() && s.tabWarnings == 0 && s.pendingSubmits == 0;
    s.WindowBlur();
    assert s.MonitorAttached() && s.tabWarnings == 1 && s.pendingSubmits == 0 && s.showTabWarning;
    s.DismissWarning();
    s.VisibilityChange(false);
    assert s.MonitorAttached() && s.tabWarnings == 1 && s.pendingSubmits == 0;
    s.VisibilityChange(true);
    assert s.MonitorAttached() && s.tabWarnings == 2 && s.pendingSubmits == 0;
    noticeAfterTwo := TabWarning.NoticeFor(MaxWarnings, s.tabWarnings);
    pendingAfterTwo := s.pendingSubmits;
    s.WindowBlur();
    pendingAfterThree := s.pendingSubmits;
    warnings := s.tabWarnings;
  }

  /** A fresh attempt submitted at once: the results show and one report is saved. */
  method SubmittedAttempt(bank: seq<Question>, picks: seq<nat>) returns (s: TestSession)
    requires |picks| == |bank|
    ensures fresh(s) && s.Valid() && s.isAuthenticated && s.testStarted && s.showResults
    ensures s.tabWarnings == 0 && s.pendingSubmits == 0 && |s.reports| == 1
  {
    s := new TestSession(bank, true);
    s.StartTest(30, 10, picks);
    assert s.MonitorAttached() && s.tabWarnings == 0 && s.pendingSubmits == 0 && s.reports == [];
    s.Submit();
  }

  /** Once the results show, the listeners are gone: switching away counts nothing and submits nothing. */
  method SwitchAfterResults(bank: seq<Question>, picks: seq<nat>)
    returns (screen: Screen, warnings: nat, pending: nat, saved: seq<ScoreReport>)
    requires |picks| == |bank|
    ensures screen == ResultsScreen && warnings == 0 && pending == 0 && |saved| == 1
  {
    var s := SubmittedAttempt(bank, picks);
    assert !s.MonitorAttached();
    s.WindowBlur();
    assert !s.MonitorAttached() && s.tabWarnings == 0 && s.pendingSubmits == 0 && |s.reports| == 1;
    s.VisibilityChange(true);
    screen := s.CurrentScreen();
    warnings := s.tabWarnings;
    pending := s.pendingSubmits;
    saved := s.reports;
  }

  /**
   * Two auto-submits scheduled in one attempt (a fourth tab switch lands
   * before the first one runs): the second finds the results already shown,
   * so the score is saved once.  This rests on each callback running to
   * completion: in the browser one tab switch fires both `blur` and
   * `visibilitychange`, and a second callback that starts while the first
   * is still awaiting `saveScore` (src/App.jsx:75) still sees `showResults`
   * false and saves a second time.
   */
  method RepeatedAutoSubmit(bank: seq<Question>, picks: seq<nat>)
    returns (pending: nat, screen: Screen, saved: seq<ScoreReport>)
    requires |picks| == |bank|
    ensures pending == 2
    ensures screen == ResultsScreen && |saved| == 1
  {
    var s := new TestSession(bank, true);
    s.StartTest(30, 10, picks);
    assert s.MonitorAttached() && s.tabWarnings == 0 && s.pendingSubmits == 0 && s.reports == [];
    s.WindowBlur();
    assert s.MonitorAttached() && s.tabWarnings == 1 && s.pendingSubmits == 0;
    s.WindowBlur();
    assert s.MonitorAttached() && s.tabWarnings == 2 && s.pendingSubmits == 0;
    s.WindowBlur();
    assert s.MonitorAttached() && s.tabWarnings == 3 && s.pendingSubmits == 1;
    s.WindowBlur();
    assert s.tabWarnings == 4 && s.pendingSubmits == 2 && !s.showResults && s.reports == [];
    pending := s.pendingSubmits;
    s.FireScheduledSubmit();
    assert s.showResults && |s.reports| == 1;
    s.FireScheduledSubmit();
    screen := s.CurrentScreen();
    saved := s.reports;
  }

  /** The options of the questions an attempt draws all come from the bank. */
  lemma OptionsOfSelection(bank: seq<Question>, picks: seq<nat>, k: nat)
    requires |picks| == |bank| && k <= |bank|
    requires forall q :: q in bank ==> |q.options| > 0
    ensures forall i :: 0 <= i < k ==> |Shuffled(bank, picks)[..k][i].options| > 0
  {
    ShuffledPermutes(bank, picks);
    var shuffled := Shuffled(bank, picks);
    forall i | 0 <= i < k
      ensures |shuffled[..k][i].options| > 0
    {
      assert shuffled[..k][i] == shuffled[i];
      assert shuffled[i] in multiset(bank);
    }
  }

  /**
   * Stepping through a three-question attempt: Next stays disabled until an
   * option is chosen, the last question offers Submit, and going back keeps
   * the answers.
   */
  method StepThroughThree(bank: seq<Question>, picks: seq<nat>)
    returns (first: Navigation.Buttons, answered: Navigation.Buttons, last: Navigation.Buttons,
             back: int, kept: map<int, int>)
    requires |picks| == |bank| && |bank| >= 3
    requires forall q :: q in bank ==> |q.options| > 0
    ensures first == Navigation.Buttons(true, Navigation.NextButton(true))
    ensures answered == Navigation.Buttons(true, Navigation.NextButton(false))
    ensures last.forward == Navigation.SubmitButton && !last.prevDisabled
    ensures back == 1 && kept == map[0 := 0, 1 := 0, 2 := 0]
  {
    var s := new TestSession(bank, true);
    s.StartTest(30, 3, picks);
    OptionsOfSelection(bank, picks, 3);
    assert |s.questions| == 3 && s.timeRemaining == 1800 && s.testDuration == 30;
    first := Navigation.NavButtons(s.currentQuestionIndex, |s.questions|, s.HasAnswer());
    s.SelectAnswer(0);
    assert s.currentQuestionIndex == 0 && s.answers == map[0 := 0];
    answered := Navigation.NavButtons(s.currentQuestionIndex, |s.questions|, s.HasAnswer());
    s.Next();
    assert s.currentQuestionIndex == 1 && s.CurrentScreen() == TestScreen;
    s.SelectAnswer(0);
    s.Next();
    assert s.currentQuestionIndex == 2 && s.answers == map[0 := 0, 1 := 0];
    s.SelectAnswer(0);
    assert s.answers == map[0 := 0, 1 := 0, 2 := 0] && s.HasAnswer();
    last := Navigation.NavButtons(s.currentQuestionIndex, |s.questions|, s.HasAnswer());
    s.Prev();
    back := s.currentQuestionIndex;
    kept := s.answers;
  }

  /**
   * Submit pressed before the first tick: the results show and one report
   * is saved, and `handleSubmit`, unlike the auto-submit, reports zero
   * seconds taken.
   */
  method SubmitAtOnce(bank: seq<Question>, picks: seq<nat>) returns (screen: Screen, saved: seq<ScoreReport>)
    requires |picks| == |bank| && |bank| >= 3
    ensures screen == ResultsScreen && |saved| == 1
    ensures saved[0].totalQuestions == 3 && saved[0].timeTaken == 0 && saved[0].score == 0
  {
    var s := new TestSession(bank, true);
    s.StartTest(30, 3, picks);
    ShuffledPermutes(bank, picks);
    assert |s.questions| == 3 && s.timeRemaining == 1800 && s.testDuration == 30 && s.answers == map[];
    s.Submit();
    NoAnswersScoreZero(s.questions, 3);
    screen := s.CurrentScreen();
    saved := s.reports;
  }

  /** A fresh thirty-minute attempt whose third tab switch has scheduled the auto-submit. */
  method WarnedOut(bank: seq<Question>, picks: seq<nat>) returns (s: TestSession)
    requires |picks| == |bank|
    ensures fresh(s) && s.Valid() && s.isAuthenticated && s.testStarted && !s.showResults && s.bank == bank
    ensures s.pendingSubmits == 1 && s.reports == [] && s.testDuration == 30
  {
    s := new TestSession(bank, true);
    s.StartTest(30, 10, picks);
    assert s.MonitorAttached() && s.tabWarnings == 0 && s.pendingSubmits == 0 && s.reports == [];
    s.WindowBlur();
    assert s.MonitorAttached() && s.tabWarnings == 1 && s.pendingSubmits == 0;
    s.WindowBlur();
    assert s.MonitorAttached() && s.tabWarnings == 2 && s.pendingSubmits == 0;
    s.WindowBlur();
  }

  /**
   * Exit Test while the third warning's auto-submit is still waiting:
   * `handleRestart` does not cancel it, so when it runs on the dashboard it
   * hands `saveScore` a report of no questions and the full duration, which
   * `/save` refuses with 400, and shows the results.  The next attempt then opens on the results screen, with no
   * countdown and no focus listeners.
   */
  method RestartWithPendingSubmit(bank: seq<Question>, picks: seq<nat>)
    returns (saved: seq<ScoreReport>, screen: Screen, timerRunning: bool, monitorAttached: bool)
    requires |picks| == |bank|
    ensures |saved| == 1 && saved[0].totalQuestions == 0 && saved[0].timeTaken == 1800
    ensures saved[0].score == 0 && saved[0].answers == []
    ensures ScoresRoute.Save(ReportBody(saved[0])).BadRequest?
    ensures screen == ResultsScreen && !timerRunning && !monitorAttached
  {
    var s := WarnedOut(bank, picks);
    s.Restart();
    assert s.questions == [] && s.timeRemaining == 0 && s.pendingSubmits == 1 && s.testDuration == 30;
    s.FireScheduledSubmit();
    assert s.showResults && s.CurrentScreen() == DashboardScreen && |s.reports| == 1;
    saved := s.reports;
    EmptyReportRefused(saved[0]);
    s.StartTest(30, 10, picks);
    screen := s.CurrentScreen();
    timerRunning := s.TimerRunning();
    monitorAttached := s.MonitorAttached();
  }

  // ----- what `/save` makes of a report -----

  /** An answer entry as `JSON.stringify` writes it: an `undefined` answer is left out. */
  function DetailJson(d: AnswerDetail): ScoresRoute.Json
  {
    var fields := map["questionId" := ScoresRoute.JNumber(d.questionId as real),
                      "question" := ScoresRoute.JString(d.question),
                      "correctAnswer" := ScoresRoute.JNumber(d.correctAnswer as real),
                      "isCorrect" := ScoresRoute.JBool(d.isCorrect)];
    ScoresRoute.JObject(if d.userAnswer.Some? then fields["userAnswer" := ScoresRoute.JNumber(d.userAnswer.value as real)]
                        else fields)
  }

  /** The body `apiService.saveScore` posts for a report: its three numbers and one answer entry per question. */
  function ReportBody(r: ScoreReport): (body: map<string, ScoresRoute.Json>)
    ensures ScoresRoute.Field(body, "score") == Some(ScoresRoute.JNumber(r.score as real))
    ensures ScoresRoute.Field(body, "totalQuestions") == Some(ScoresRoute.JNumber(r.totalQuestions as real))
    ensures ScoresRoute.Field(body, "timeTaken") == Some(ScoresRoute.JNumber(r.timeTaken as real))
    ensures ScoresRoute.IsArray(ScoresRoute.Field(body, "answers"))
    ensures |ScoresRoute.Field(body, "answers").value.items| == |r.answers|
  {
    map["score" := ScoresRoute.JNumber(r.score as real),
        "totalQuestions" := ScoresRoute.JNumber(r.totalQuestions as real),
        "timeTaken" := ScoresRoute.JNumber(r.timeTaken as real),
        "answers" := ScoresRoute.JArray(seq(|r.answers|, i requires 0 <= i < |r.answers| => DetailJson(r.answers[i])))]
  }

  /** A report of no questions fails the `totalQuestions` check of `/save`, so nothing is stored. */
  lemma EmptyReportRefused(r: ScoreReport)
    requires r.totalQuestions == 0
    ensures ScoresRoute.Save(ReportBody(r)).BadRequest?
    ensures ScoresRoute.FieldError("totalQuestions", ScoresRoute.TotalMessage) in ScoresRoute.Save(ReportBody(r)).errors
  {
    assert ScoresRoute.IntValue(ScoresRoute.Field(ReportBody(r), "totalQuestions")) == Some(0);
  }

  /**
   * A report of at least one question and a non-negative time passes `/save`,
   * which stores its score, question count and time, and the score as the correct count.
   */
  lemma ReportAccepted(r: ScoreReport)
    requires r.totalQuestions >= 1 && r.timeTaken >= 0 && r.score <= r.totalQuestions
    ensures ScoresRoute.Save(ReportBody(r)).Created?
    ensures var row := ScoresRoute.Save(ReportBody(r)).row;
            row.score == r.score && row.totalQuestions == r.totalQuestions && row.timeTaken == r.timeTaken
            && row.correctAnswers == r.score && row.wrongAnswers == r.totalQuestions - r.score
  {
    var body := ReportBody(r);
    assert ScoresRoute.IntValue(ScoresRoute.Field(body, "score")) == Some(r.score);
    assert ScoresRoute.IntValue(ScoresRoute.Field(body, "totalQuestions")) == Some(r.totalQuestions);
    assert ScoresRoute.IntValue(ScoresRoute.Field(body, "timeTaken")) == Some(r.timeTaken);
  }
}
