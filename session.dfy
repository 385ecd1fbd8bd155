/**
 * The timed-test session of src/App.jsx: the component state of `App`
 * updated in place by its handlers, by the one-second countdown and by the
 * page-hidden / window-blur listeners.
 *
 * Wall-clock time and the browser's event loop are replaced by explicit
 * calls: `Tick` is one run of the interval callback, `VisibilityChange` and
 * `WindowBlur` are the two listeners, and `FireScheduledSubmit` runs one of
 * the `setTimeout(() => submitRef.current?.(), ...)` callbacks still waiting
 * (`submitRef.current` is always the latest `handleAutoSubmit`).
 */
module Session {
  import opened Wrappers
  import opened JsText
  import opened Shuffle
  import opened Scoring
  import Navigation
  import ScoreCard

  /** `MAX_WARNINGS`: the tab switch that reaches it submits the test. */
  const MaxWarnings := 3

  /** The branch `App` renders. */
  datatype Screen = AuthScreen | DashboardScreen | ResultsScreen | TestScreen

  /** The body sent to `apiService.saveScore`. */
  datatype ScoreReport = ScoreReport(score: nat, totalQuestions: nat, timeTaken: int, answers: seq<AnswerDetail>)

  /** End index of `slice(0, count)` on a sequence of length `n`; a negative count counts from the end. */
  function SliceEnd(n: nat, count: int): (e: nat)
    ensures e <= n
    ensures count >= 0 ==> e == Min(count, n)
    ensures count < 0 ==> e == Max(n + count, 0)
  {
    if count >= 0 then Min(count, n) else Max(n + count, 0)
  }

  /**
   * The score report of an attempt: its score is the number of correct
   * answers, at most the number of questions, and agrees with the per-question flags.
   */
  function Report(questions: seq<Question>, answers: map<int, int>, timeTaken: int): (r: ScoreReport)
    ensures r.score <= r.totalQuestions == |questions|
    ensures r.score == |CorrectIndices(questions, answers, |questions|)|
    ensures CountFlagged(r.answers) == r.score
    ensures r.timeTaken == timeTaken
  {
    DetailsAgreeWithScore(questions, answers);
    ScoreCountsCorrectAnswers(questions, answers);
    ScoreReport(Score(questions, answers), |questions|, timeTaken, AnswerDetails(questions, answers))
  }

  class TestSession {
    /** `allQuestions`, the static question bank. */
    const bank: seq<Question>
    /** Whether a user is logged in; logging in and out is not part of this model. */
    const isAuthenticated: bool

    var testDuration: int            // minutes
    var timeRemaining: int           // seconds
    var questions: seq<Question>
    var currentQuestionIndex: int
    var answers: map<int, int>
    var showResults: bool
    var testStarted: bool
    var showDashboard: bool
    var tabWarnings: nat
    var showTabWarning: bool
    /** Deferred auto-submit callbacks scheduled and not yet run. */
    var pendingSubmits: nat
    /** Every score handed to `saveScore`, oldest first. */
    var reports: seq<ScoreReport>

    /** The furthest question index reached in this attempt. */
    ghost var furthest: int

    ghost predicate Valid()
      reads this`currentQuestionIndex, this`furthest, this`questions, this`answers,
            this`showDashboard, this`testStarted
    {
      && 0 <= currentQuestionIndex <= furthest
      && (furthest == 0 || furthest < |questions|)
      && (forall k :: k in answers ==>
            0 <= k <= furthest && k < |questions| && 0 <= answers[k] < |questions[k].options|)
      && (forall i :: 0 <= i < furthest ==> i in answers)
      && showDashboard == !testStarted
      && (!testStarted ==> answers == map[] && currentQuestionIndex == 0 && furthest == 0)
    }

    /** The values `handleRestart` restores (and the initial `useState` values). */
    predicate Initial()
      reads this
    {
      && currentQuestionIndex == 0 && answers == map[] && !showResults && timeRemaining == 0
      && !testStarted && showDashboard && tabWarnings == 0 && !showTabWarning && questions == []
    }

    constructor (bank: seq<Question>, isAuthenticated: bool)
      ensures Valid() && Initial()
      ensures this.bank == bank && this.isAuthenticated == isAuthenticated
      ensures testDuration == 60 && pendingSubmits == 0 && reports == []
    {
      this.bank := bank;
      this.isAuthenticated := isAuthenticated;
      testDuration := 60;
      timeRemaining := 0;
      questions := [];
      currentQuestionIndex := 0;
      answers := map[];
      showResults := false;
      testStarted := false;
      showDashboard := true;
      tabWarnings := 0;
      showTabWarning := false;
      pendingSubmits := 0;
      reports := [];
      furthest := 0;
    }

    /**
     * The branch `App` renders: the login gate first, then the dashboard
     * until a test starts, then the results once they are to be shown.
     */
    function CurrentScreen(): (screen: Screen)
      reads this`showDashboard, this`testStarted, this`showResults
      ensures screen == AuthScreen <==> !isAuthenticated
      ensures isAuthenticated && testStarted ==> (screen == ResultsScreen <==> showResults)
      ensures screen == TestScreen ==> isAuthenticated && !showResults
    {
      if !isAuthenticated then AuthScreen
      else if showDashboard && !testStarted then DashboardScreen
      else if showResults then ResultsScreen
      else TestScreen
    }

    /** The countdown interval is installed exactly in this state. */
    predicate TimerRunning()
      reads this`testStarted, this`showResults, this`timeRemaining
      ensures TimerRunning() ==> MonitorAttached()
    {
      testStarted && !showResults && timeRemaining > 0
    }

    /** The visibility and blur listeners are attached exactly in this state. */
    predicate MonitorAttached()
      reads this`testStarted, this`showResults, this`showDashboard
      ensures MonitorAttached() && isAuthenticated ==> CurrentScreen() == TestScreen
    {
      testStarted && !showResults
    }

    /** `answers[currentQuestionIndex] !== undefined`, the `hasAnswer` given to Navigation. */
    predicate HasAnswer()
      reads this`currentQuestionIndex, this`furthest, this`questions, this`answers,
            this`showDashboard, this`testStarted
      ensures Valid() && HasAnswer() ==>
                currentQuestionIndex in answers && 0 <= currentQuestionIndex < |questions|
                && 0 <= answers[currentQuestionIndex] < |questions[currentQuestionIndex].options|
    {
      currentQuestionIndex in answers
    }

    /** Number of answered questions: the answered indices are exactly 0..AnsweredCount()-1. */
    ghost function AnsweredCount(): nat
      reads this`currentQuestionIndex, this`furthest, this`questions, this`answers,
            this`showDashboard, this`testStarted
      requires Valid()
    {
      if furthest in answers then furthest + 1 else furthest
    }

    /** The answered indices always form a prefix 0..m-1 of the questions. */
    lemma AnsweredPrefix()
      requires Valid()
      ensures forall i :: i in answers <==> 0 <= i < AnsweredCount()
      ensures AnsweredCount() <= |questions|
    {
      if AnsweredCount() > 0 {
        assert AnsweredCount() - 1 in answers;
      }
    }

    /**
     * The results card shown after a submit marks exactly the correct answers:
     * `Object.values(answers)` is index-aligned because the answered
     * indices form a prefix, so it shows as many ✓ marks as the score.
     */
    lemma ResultsMarksMatchScore()
      requires Valid()
      ensures ScoreCard.CountMarks(ScoreCard.ObjectValues(answers, |questions|), questions, |questions|)
              == Score(questions, answers)
    {
      AnsweredPrefix();
      ScoreCard.MarksMatchScore(questions, answers, AnsweredCount());
    }

    /** The time reported by `handleAutoSubmit`: elapsed seconds, or the full duration when none elapsed. */
    function AutoTimeTaken(): (t: int)
      reads this`testDuration, this`timeRemaining
      ensures testDuration * 60 - timeRemaining > 0 ==> t == testDuration * 60 - timeRemaining
      ensures testDuration * 60 - timeRemaining <= 0 ==> t == testDuration * 60
    {
      var totalTime := testDuration * 60 - timeRemaining;
      if totalTime > 0 then totalTime else testDuration * 60
    }

    /**
     * `startTest(durationMinutes, numQuestions)`, called from the dashboard:
     * `durationMinutes || testDuration` minutes, and the first
     * `numQuestions || allQuestions.length` questions of a shuffled bank.
     */
    method StartTest(durationMinutes: int, numQuestions: int, picks: seq<nat>)
      requires Valid() && CurrentScreen() == DashboardScreen
      requires |picks| == |bank|
      modifies this`testDuration, this`timeRemaining, this`questions, this`testStarted,
               this`showDashboard, this`tabWarnings, this`showTabWarning
      ensures Valid()
      ensures testDuration == Or(durationMinutes, old(testDuration))
      ensures timeRemaining == testDuration * 60
      ensures questions == Shuffled(bank, picks)[..SliceEnd(|bank|, Or(numQuestions, |bank|))]
      ensures testStarted && !showDashboard && tabWarnings == 0 && !showTabWarning
      ensures answers == map[] && currentQuestionIndex == 0
    {
      var duration := Or(durationMinutes, testDuration);
      var count := Or(numQuestions, |bank|);
      testDuration := duration;
      timeRemaining := duration * 60;
      var shuffled := ShuffleArray(bank, picks);
      questions := shuffled[..SliceEnd(|bank|, count)];
      testStarted := true;
      showDashboard := false;
      tabWarnings := 0;
      showTabWarning := false;
    }

    /** `handleAnswerSelect(answerIndex)`: the option clicked on the current question. */
    method SelectAnswer(answerIndex: int)
      requires Valid() && CurrentScreen() == TestScreen
      requires 0 <= currentQuestionIndex < |questions|
      requires 0 <= answerIndex < |questions[currentQuestionIndex].options|
      modifies this`answers
      ensures Valid()
      ensures answers == old(answers)[currentQuestionIndex := answerIndex]
    {
      answers := answers[currentQuestionIndex := answerIndex];
    }

    /** `handleNext`, reached through the Next button, which is disabled until the question is answered. */
    method Next()
      requires Valid() && CurrentScreen() == TestScreen
      requires HasAnswer()
      modifies this`currentQuestionIndex, this`furthest
      ensures Valid()
      ensures currentQuestionIndex ==
                if old(currentQuestionIndex) < |questions| - 1 then old(currentQuestionIndex) + 1
                else old(currentQuestionIndex)
    {
      if currentQuestionIndex < |questions| - 1 {
        currentQuestionIndex := currentQuestionIndex + 1;
        if furthest < currentQuestionIndex {
          furthest := currentQuestionIndex;
        }
      }
    }

    /** `handlePrev`. */
    method Prev()
      requires Valid() && CurrentScreen() == TestScreen
      modifies this`currentQuestionIndex
      ensures Valid()
      ensures currentQuestionIndex ==
                if old(currentQuestionIndex) > 0 then old(currentQuestionIndex) - 1
                else old(currentQuestionIndex)
    {
      if currentQuestionIndex > 0 {
        currentQuestionIndex := currentQuestionIndex - 1;
      }
    }

    /**
     * One run of the one-second interval callback.  The interval exists only
     * while `TimerRunning()`; the run that finds one second or less left sets
     * the time to 0, clears the interval and schedules one auto-submit.
     */
    method Tick()
      requires Valid()
      modifies this`timeRemaining, this`pendingSubmits
      ensures Valid()
      ensures !old(TimerRunning()) ==>
                timeRemaining == old(timeRemaining) && pendingSubmits == old(pendingSubmits)
      ensures old(TimerRunning()) && old(timeRemaining) > 1 ==>
                timeRemaining == old(timeRemaining) - 1 && pendingSubmits == old(pendingSubmits)
      ensures old(TimerRunning()) && old(timeRemaining) <= 1 ==>
                timeRemaining == 0 && pendingSubmits == old(pendingSubmits) + 1
      ensures 0 <= old(timeRemaining) ==> 0 <= timeRemaining <= old(timeRemaining)
    {
      if TimerRunning() {
        if timeRemaining <= 1 {
          timeRemaining := 0;
          pendingSubmits := pendingSubmits + 1;
        } else {
          timeRemaining := timeRemaining - 1;
        }
      }
    }

    /**
     * The escalation both listeners perform: one more warning; reaching
     * `MaxWarnings` schedules an auto-submit, a lower count shows the warning.
     */
    method RecordWarning()
      requires Valid()
      modifies this`tabWarnings, this`showTabWarning, this`pendingSubmits
      ensures Valid()
      ensures tabWarnings == old(tabWarnings) + 1
      ensures tabWarnings >= MaxWarnings ==>
                pendingSubmits == old(pendingSubmits) + 1 && showTabWarning == old(showTabWarning)
      ensures tabWarnings < MaxWarnings ==>
                pendingSubmits == old(pendingSubmits) && showTabWarning
    {
      var newCount := tabWarnings + 1;
      if newCount >= MaxWarnings {
        pendingSubmits := pendingSubmits + 1;
      } else {
        showTabWarning := true;
      }
      tabWarnings := newCount;
    }

    /** The `visibilitychange` listener; only a change to hidden escalates. */
    method VisibilityChange(hidden: bool)
      requires Valid()
      modifies this`tabWarnings, this`showTabWarning, this`pendingSubmits
      ensures Valid()
      ensures !(old(MonitorAttached()) && hidden) ==>
                tabWarnings == old(tabWarnings) && showTabWarning == old(showTabWarning)
                && pendingSubmits == old(pendingSubmits)
      ensures old(MonitorAttached()) && hidden ==> tabWarnings == old(tabWarnings) + 1
      ensures old(MonitorAttached()) && hidden && tabWarnings >= MaxWarnings ==>
                pendingSubmits == old(pendingSubmits) + 1 && showTabWarning == old(showTabWarning)
      ensures old(MonitorAttached()) && hidden && tabWarnings < MaxWarnings ==>
                pendingSubmits == old(pendingSubmits) && showTabWarning
    {
      if MonitorAttached() && hidden {
        RecordWarning();
      }
    }

    /** The window `blur` listener. */
    method WindowBlur()
      requires Valid()
      modifies this`tabWarnings, this`showTabWarning, this`pendingSubmits
      ensures Valid()
      ensures !old(MonitorAttached()) ==>
                tabWarnings == old(tabWarnings) && showTabWarning == old(showTabWarning)
                && pendingSubmits == old(pendingSubmits)
      ensures old(MonitorAttached()) ==> tabWarnings == old(tabWarnings) + 1
      ensures old(MonitorAttached()) && tabWarnings >= MaxWarnings ==>
                pendingSubmits == old(pendingSubmits) + 1 && showTabWarning == old(showTabWarning)
      ensures old(MonitorAttached()) && tabWarnings < MaxWarnings ==>
                pendingSubmits == old(pendingSubmits) && showTabWarning
    {
      if MonitorAttached() {
        RecordWarning();
      }
    }

    /**
     * The `scoreData` object both submit handlers build from the score they
     * computed, handed to `saveScore`; a failed save is only logged.
     */
    method SaveScore(score: nat, timeTaken: int)
      requires score == Score(questions, answers)
      modifies this`reports
      ensures reports == old(reports) + [Report(questions, answers, timeTaken)]
    {
      var scoreData := ScoreReport(score, |questions|, timeTaken, AnswerDetails(questions, answers));
      reports := reports + [scoreData];
    }

    /**
     * What both submit handlers do once they go ahead: count the score, save
     * it when logged in, and show the results.
     */
    method Finish(timeTaken: int)
      requires Valid()
      modifies this`showResults, this`reports
      ensures Valid() && showResults && CurrentScreen() != TestScreen
      ensures !isAuthenticated ==> reports == old(reports)
      ensures isAuthenticated ==> reports == old(reports) + [Report(questions, answers, timeTaken)]
    {
      var score := CalculateScore(questions, answers);
      if isAuthenticated {
        SaveScore(score, timeTaken);
      }
      showResults := true;
    }

    /** `handleAutoSubmit`: does nothing once the results show. */
    method AutoSubmit()
      requires Valid()
      modifies this`showResults, this`reports
      ensures Valid() && showResults && CurrentScreen() != TestScreen
      ensures old(showResults) || !isAuthenticated ==> reports == old(reports)
      ensures !old(showResults) && isAuthenticated ==>
                reports == old(reports) + [Report(questions, answers, AutoTimeTaken())]
    {
      if !showResults {
        Finish(AutoTimeTaken());
      }
    }

    /** One deferred `submitRef.current?.()` callback runs. */
    method FireScheduledSubmit()
      requires Valid() && pendingSubmits > 0
      modifies this`pendingSubmits, this`showResults, this`reports
      ensures Valid() && showResults && CurrentScreen() != TestScreen
      ensures pendingSubmits == old(pendingSubmits) - 1
      ensures old(showResults) || !isAuthenticated ==> reports == old(reports)
      ensures !old(showResults) && isAuthenticated ==>
                reports == old(reports) + [Report(questions, answers, AutoTimeTaken())]
    {
      pendingSubmits := pendingSubmits - 1;
      AutoSubmit();
    }

    /**
     * `handleSubmit`, the Submit Test button shown on the last question of
     * the test screen; unlike `handleAutoSubmit` it reports the elapsed time as it is.
     */
    method Submit()
      requires Valid() && CurrentScreen() == TestScreen
      modifies this`showResults, this`reports
      ensures Valid() && showResults && CurrentScreen() != TestScreen
      ensures !isAuthenticated ==> reports == old(reports)
      ensures isAuthenticated ==>
                reports == old(reports) + [Report(questions, answers, testDuration * 60 - timeRemaining)]
    {
      Finish(testDuration * 60 - timeRemaining);
    }

    /** The Dismiss button of the warning overlay. */
    method DismissWarning()
      requires Valid()
      modifies this`showTabWarning
      ensures Valid() && !showTabWarning
    {
      showTabWarning := false;
    }

    /**
     * `handleRestart` (Exit Test, Take Test Again): every session field back
     * to its initial value.  The chosen duration stays, and deferred
     * auto-submits already scheduled are not cancelled.
     */
    method Restart()
      requires Valid()
      modifies this`currentQuestionIndex, this`answers, this`showResults, this`timeRemaining,
               this`testStarted, this`showDashboard, this`tabWarnings, this`showTabWarning,
               this`questions, this`furthest
      ensures Valid() && Initial()
    {
      currentQuestionIndex := 0;
      answers := map[];
      showResults := false;
      timeRemaining := 0;
      testStarted := false;
      showDashboard := true;
      tabWarnings := 0;
      showTabWarning := false;
      questions := [];
      furthest := 0;
    }
  }
}
