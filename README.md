# Aptitude MCQ test — a Dafny model of the timed test session

The application is a browser multiple-choice aptitude test with a small
Express back end.  A logged-in user configures a test on the dashboard
(number of questions, minutes), answers a shuffled selection of the
question bank against a countdown, is warned each time the tab or the
window loses focus, and is submitted automatically when the time runs out
or on the third warning.  The score is shown on a results card and saved
through `POST /scores/save`; `/scores/history` pages through past attempts.

This project models, in Dafny:

- `Session.TestSession` (session.dfy): the state `App` keeps for one attempt (src/App.jsx).
  It is a class whose fields are the component state, and whose methods are the handlers:
  - `StartTest`, `SelectAnswer`, `Next`, `Prev`, `Submit`, `Restart`;
  - one run of the countdown interval (`Tick`);
  - the two focus listeners (`VisibilityChange`, `WindowBlur`);
  - one deferred auto-submit callback (`FireScheduledSubmit`).

  A ghost field `furthest` records the furthest question reached. With it, the
  invariant `Valid()` states that:
  - the current index stays in range;
  - the answered indices always form a prefix of the questions.
- `Shuffle` (shuffle.dfy): `shuffleArray`, the Fisher–Yates loop on a copied array. It is proved to be
  `Shuffled` (a recursive definition), and therefore a permutation of the bank.
- `Scoring` (scoring.dfy): `calculateScoreFromState` and the per-question detail that is sent with a
  score.
- `Navigation`, `Dashboard`, `ScoreCard`, `TabWarning` (one file each): the pure helpers of those
  components, namely:
  - the countdown and duration formatters, with their parsing round trips;
  - the button gating;
  - the custom-input clamps and the test-configuration dialog;
  - the grade and band selection;
  - the warning dots and notices.
- `ScoresRoute` (scores_route.dfy): the request checks and derived counts of `/save`, the page arithmetic of
  `/history`, and the `/leaderboard` size.
- `JsText` (js_text.dfy): the JavaScript built-ins the source relies on, on strings:
  - `parseInt`, where `None` stands for `NaN`;
  - `toString` of a non-negative integer;
  - `padStart(2, '0')`;
  - `x || d`.
- `Flows` (flows.dfy): whole attempts driven through the class the way the browser drives `App`:
  - the dashboard hand-off;
  - the countdown running out;
  - three tab switches;
  - two auto-submits in one attempt;
  - stepping through three questions.

Time, the event loop and randomness are parameters:
- a tick is a method call;
- a `setTimeout(() => submitRef.current?.(), …)` still waiting is counted in `pendingSubmits`, and
  `FireScheduledSubmit` runs one;
- `Math.random()` is replaced by a sequence `picks`, of which `picks[i] % (i + 1)` is the swap index.

A score handed to `apiService.saveScore` is appended to the field `reports`.

Three consequences of the code are stated as they are:
- **No cap on the warning count.** Each focus loss while the test runs adds a warning
  (src/App.jsx:104-131), so `tabWarnings` can exceed `MaxWarnings`. The dashboard only tells the
  user that the test is auto-submitted after 3 warnings (src/components/Dashboard.jsx:470-472).
- **Reported time.** The two submit handlers report the time differently:
  - `handleSubmit` reports `testDuration * 60 - timeRemaining` as it is (src/App.jsx:160-164);
  - `handleAutoSubmit` replaces a non-positive value by the full duration (src/App.jsx:61-66).

  This is why `Session.TestSession.Submit` and `Session.TestSession.AutoSubmit` report different
  times.
- **Restart and pending auto-submits.** The Exit Test button warns that progress will be lost
  (src/App.jsx:280), but `handleRestart` (src/App.jsx:178-188) does not cancel auto-submits already
  scheduled. `Restart` therefore leaves `pendingSubmits` as it was, and `Flows.RestartWithPendingSubmit`
  shows what follows: `saveScore` is handed a report of no questions, which `/save` refuses with 400
  (backend/routes/scores.js:13, 20-24), so nothing is stored; and the next attempt opens on the results.

## Model

| member | source | states |
|---|---|---|
| Shuffle.Swap | src/App.jsx:17 | the swap exchanges cells `i` and `j` and leaves every other cell as it was |
| Shuffle.SwapPermutes | src/App.jsx:17 | a swap keeps the multiset of elements |
| Shuffle.Pick | src/App.jsx:16 | the random index drawn at step `i` lies in `0..i` |
| Shuffle.FisherYates | src/App.jsx:13-20 | the shuffle of the cells `0..top` keeps the length |
| Shuffle.FisherYatesPermutes | src/App.jsx:13-20 | the downward swap loop yields a permutation (same multiset) of its input, by induction on the steps |
| Shuffle.ShuffledPermutes | src/App.jsx:13-20 | `shuffleArray` returns a sequence of the same length and the same elements with multiplicity |
| Shuffle.ShuffleArray | src/App.jsx:13-20 | the in-place loop on a fresh array (the caller's sequence is a value and is left unchanged) computes `Shuffled(s, picks)`, a permutation of `s` |
| Shuffle.PermutationKeepsDistinct | src/App.jsx:204 | a permutation of a bank without duplicates has no duplicates |
| Shuffle.DistinctCountsOnce | src/App.jsx:204 | an element of a duplicate-free sequence occurs exactly once in its multiset |
| Shuffle.TwoOccurrences | src/App.jsx:204 | two equal cells at different indices make that element occur at least twice |
| Shuffle.SelectionFromBank | src/App.jsx:204 | the first `k` questions of the shuffled bank are `k` distinct questions, all from the bank |
| Scoring.CountCorrect | src/App.jsx:190-196 | the number of correct answers among the first `n` questions is at most `n` |
| Scoring.Score | src/App.jsx:190-196 | the score of an attempt is at most the number of questions, and 0 with no answers |
| Scoring.CorrectIndicesStep | src/App.jsx:193 | adding question `n-1` adds it to the correct set exactly when it is answered correctly |
| Scoring.CountCorrectIsCardinality | src/App.jsx:190-196 | the count equals the size of the set of indices `i < n` with `answers[i] == questions[i].correctAnswer` |
| Scoring.ScoreCountsCorrectAnswers | src/App.jsx:190-196 | the score is the number of correctly answered indices; unanswered indices never count; `0 <= score <= N` |
| Scoring.NoAnswersScoreZero | src/App.jsx:190-196 | with no answers the score is 0 |
| Scoring.CalculateScore | src/App.jsx:190-196 | the `forEach` counter loop returns the score, at most the number of questions |
| Scoring.Detail | src/App.jsx:67-73 | one entry of `scoreData.answers`: the question id, the user's answer or none, the correct answer, and `isCorrect` exactly when answered correctly |
| Scoring.DetailsPrefix | src/App.jsx:67-73 | the first `n` entries of the mapped array, entry `i` describing question `i` |
| Scoring.AnswerDetails | src/App.jsx:67-73 | `questions.map(...)`: one entry per question, entry `i` describing question `i` |
| Scoring.CountFlagged | src/App.jsx:72 | the number of entries flagged `isCorrect` is at most the number of entries |
| Scoring.CountFlaggedPrefix | src/App.jsx:67-73 | among the first `n` entries, as many are flagged correct as the score counts there |
| Scoring.DetailsAgreeWithScore | src/App.jsx:59-74 | the reported `score` equals the number of entries flagged `isCorrect` |
| Session.SliceEnd | src/App.jsx:204 | the end index of `slice(0, count)` is at most the length: `min(count, n)` for a non-negative count, counted from the end for a negative one |
| Session.Report | src/App.jsx:63-74 | the score report has score at most `totalQuestions == questions.length`, its score is the number of correct answers and agrees with the per-question flags, and it carries the given time |
| Session.TestSession.constructor | src/App.jsx:24-42 | the initial `useState` values: index 0, no answers, no results, 0 seconds, not started, dashboard shown, 0 warnings, no questions, 60 minutes |
| Session.TestSession.CurrentScreen | src/App.jsx:232-256 | the render order: the login screen exactly when logged out; once a test has started, the results exactly when `showResults`; the test screen only while logged in and before the results |
| Session.TestSession.TimerRunning | src/App.jsx:87 | the countdown interval runs only in a state where the focus listeners are attached as well |
| Session.TestSession.MonitorAttached | src/App.jsx:105 | while the listeners are attached, a logged-in user sees the test screen |
| Session.TestSession.HasAnswer | src/App.jsx:307 | in a valid state, an answer at the current question is a valid option of that question |
| Session.TestSession.AnsweredPrefix | src/App.jsx:144-154 | in every valid state the answered indices are exactly `0..m-1` for some `m <= N` |
| Session.TestSession.ResultsMarksMatchScore | src/App.jsx:244-250 | the card receives `Object.values(answers)`, which is index-aligned, so it shows as many ✓ marks as the score |
| Session.TestSession.AutoTimeTaken | src/App.jsx:61-66 | the auto-submit time equals the elapsed seconds `testDuration*60 - timeRemaining` when they are positive, and the full duration `testDuration*60` otherwise |
| Session.TestSession.StartTest | src/App.jsx:198-209 | duration `durationMinutes` (the current one when 0), `timeRemaining == duration*60`, questions the first `numQuestions` (all when 0) of the shuffled bank, started, 0 warnings, no warning shown, no answers, index 0; the invariant holds |
| Session.TestSession.SelectAnswer | src/App.jsx:144-146 | only `answers[currentQuestionIndex]` is written (a second choice overwrites the first); the invariant is kept |
| Session.TestSession.Next | src/App.jsx:148-150 | moves forward by exactly one unless on the last question, where it does nothing; index and answered-prefix invariant kept |
| Session.TestSession.Prev | src/App.jsx:152-154 | moves back by exactly one unless at question 0, where it does nothing |
| Session.TestSession.Tick | src/App.jsx:85-101 | while the timer runs, one second less; the tick that finds at most one second sets 0 and schedules exactly one auto-submit; no timer, no change |
| Session.TestSession.RecordWarning | src/App.jsx:109-118 | one more warning, with no cap; reaching `MAX_WARNINGS` schedules one auto-submit, a lower count shows the warning |
| Session.TestSession.VisibilityChange | src/App.jsx:104-120 | only a change to hidden while the test runs escalates; otherwise nothing changes |
| Session.TestSession.WindowBlur | src/App.jsx:122-135 | a blur while the test runs escalates exactly as a hidden page does; otherwise nothing changes |
| Session.TestSession.SaveScore | src/App.jsx:61-75 | the report built from the state is appended to the saved reports |
| Session.TestSession.Finish | src/App.jsx:157-175 | score counted, saved only when logged in, results shown (the test screen is gone) |
| Session.TestSession.AutoSubmit | src/App.jsx:57-79 | a no-op once results show; otherwise results shown and, when logged in, exactly one report with the auto-submit time |
| Session.TestSession.FireScheduledSubmit | src/App.jsx:93 | one deferred `submitRef.current?.()` runs `handleAutoSubmit` and leaves one fewer pending |
| Session.TestSession.Submit | src/App.jsx:156-176 | results shown and, when logged in, one report with time `testDuration*60 - timeRemaining` |
| Session.TestSession.DismissWarning | src/App.jsx:263 | the warning overlay is hidden; nothing else changes |
| Session.TestSession.Restart | src/App.jsx:178-188 | every session field back to its initial value; the duration and the scheduled auto-submits stay |
| Navigation.ClockOf | src/components/Navigation.jsx:13-16 | `hrs*3600 + mins*60 + secs == seconds` with `mins < 60` and `secs < 60` |
| Navigation.ClockText | src/components/Navigation.jsx:17-20 | `MM:SS` (length 5) without hours, `HH:MM:SS` (length 8) for 1–99 hours |
| Navigation.FormatClock | src/components/Navigation.jsx:13-21 | length 5 below one hour, 8 from one hour up to 100 hours, at least 8 from one hour on |
| Navigation.ParseTwoFields | src/components/Navigation.jsx:20 | reading `MM:SS` back gives minutes*60 + seconds |
| Navigation.ParseThreeFields | src/components/Navigation.jsx:18 | reading `HH:MM:SS` back gives hours*3600 + minutes*60 + seconds |
| Navigation.HoursClockRoundTrip | src/components/Navigation.jsx:17-18 | the hours form reads back to its total |
| Navigation.MinutesClockRoundTrip | src/components/Navigation.jsx:20 | the minutes form reads back to its total |
| Navigation.ClockTextRoundTrip | src/components/Navigation.jsx:17-20 | either form reads back to its total |
| Navigation.FormatClockRoundTrip | src/components/Navigation.jsx:13-21 | parsing the colon-separated fields of `formatTime(seconds)` and recombining them gives `seconds` |
| Navigation.CriticalIsLow | src/components/Navigation.jsx:23-24 | critical time implies low time; both thresholds (300, 60) are inclusive |
| Navigation.IsLowTime | src/components/Navigation.jsx:23 | the warning style is on exactly while the clock reads 05:00 or less (no hours field) |
| Navigation.IsCriticalTime | src/components/Navigation.jsx:24 | the critical style is on exactly while the clock reads 01:00 or less |
| Navigation.NavButtons | src/components/Navigation.jsx:48-72 | Previous disabled exactly at question 0; Submit instead of Next exactly on the last question; Next enabled exactly when answered |
| Dashboard.DurationText | src/components/Dashboard.jsx:47-48 | an hours part exactly when there are hours; always ends in `m` |
| Dashboard.FormatDuration | src/components/Dashboard.jsx:44-49 | `Hh Mm` exactly from 3600 seconds on, `Mm` below; ends in `m` |
| Dashboard.ParseHoursMinutes | src/components/Dashboard.jsx:47 | reading `Hh Mm` back gives hours*3600 + minutes*60 |
| Dashboard.HoursDurationRoundTrip | src/components/Dashboard.jsx:47 | the hours form reads back to its total |
| Dashboard.MinutesDurationRoundTrip | src/components/Dashboard.jsx:48 | the minutes form reads back to its total |
| Dashboard.DurationTextRoundTrip | src/components/Dashboard.jsx:47-48 | either form reads back to its total |
| Dashboard.FormatDurationRoundTrip | src/components/Dashboard.jsx:44-49 | reading the text back gives the seconds with the leftover seconds dropped (minutes below 60) |
| Dashboard.WholeMinutes | src/components/Dashboard.jsx:45-46 | hours and minutes recombine to the seconds less `seconds % 60`, with minutes below 60 |
| Dashboard.ScoreBand | src/components/Dashboard.jsx:263 | good exactly from 70, average exactly in [50, 70), poor exactly below 50 |
| Dashboard.CircleClass | src/components/Dashboard.jsx:263 | the circle is `good` exactly from 70 and `poor` exactly below 50 |
| Dashboard.BadgeClass | src/components/Dashboard.jsx:312 | the badge is `success` exactly from 70 and `danger` exactly below 50 |
| Dashboard.StylesFollowBand | src/components/Dashboard.jsx:312 | the score circle class and the history badge class follow the same band |
| Dashboard.RankFor | src/components/Dashboard.jsx:339-345 | leaderboard place `index + 1`, with a medal exactly for places 1–3 |
| Dashboard.ClampQuestionCount | src/components/Dashboard.jsx:404-411 | always in [1, 100]; empty, non-numeric or `0` input gives 100 (the cleared field in particular); values in range kept; above 100 gives 100; negative gives 1 |
| Dashboard.ClampDuration | src/components/Dashboard.jsx:438-446 | always in [5, 180]; empty, non-numeric or `0` input gives 60 (the cleared field in particular); values in range kept; clamped at both ends |
| Dashboard.InitialConfig | src/components/Dashboard.jsx:11-13 | the dialog starts closed with 100 questions and 60 minutes, a valid configuration |
| Dashboard.TypedCountInRange | src/components/Dashboard.jsx:404-411 | typing a count in [1, 100] keeps it unchanged |
| Dashboard.TypedDurationInRange | src/components/Dashboard.jsx:438-446 | typing minutes in [5, 180] keeps them unchanged |
| Dashboard.PresetsInRange | src/components/Dashboard.jsx:387-419 | every preset (10–100 questions, 15–120 minutes) lies in its clamp range and survives being typed |
| Dashboard.Apply | src/components/Dashboard.jsx:387-481 | every dialog action (open, preset, typed value, cancel) keeps the configuration within the clamp ranges |
| Dashboard.ApplyAll | src/components/Dashboard.jsx:387-481 | after any sequence of actions the configuration is within the clamp ranges |
| Dashboard.StartTest | src/components/Dashboard.jsx:484-487 | Start Test closes the dialog and hands `(testDuration, numQuestions)` over unchanged |
| Dashboard.StartedValuesInRange | src/components/Dashboard.jsx:482-487 | whatever was done in the dialog, the handed-over duration is in [5, 180] and the count in [1, 100] |
| ScoreCard.GetGrade | src/components/ScoreCard.jsx:7-13 | exactly one grade per percentage: A+ from 90, A in [80, 90), B in [70, 80), C in [60, 70), D below 60 |
| ScoreCard.GradeLabel | src/components/ScoreCard.jsx:8-12 | the grade letter has two characters only for A+ and starts with A exactly for A+ and A |
| ScoreCard.GradeMessage | src/components/ScoreCard.jsx:8-12 | the message ends in an exclamation mark exactly for the grades B, A and A+ |
| ScoreCard.GradeRank | src/components/ScoreCard.jsx:7-13 | grades are ranked 0–4 from D to A+ |
| ScoreCard.GradeMonotone | src/components/ScoreCard.jsx:7-13 | a higher percentage never gets a lower grade |
| ScoreCard.GradeTextsDistinct | src/components/ScoreCard.jsx:8-12 | each grade has its own label and its own fixed message |
| ScoreCard.IncorrectCount | src/components/ScoreCard.jsx:30 | correct plus incorrect is the number of questions |
| ScoreCard.CorrectPlusMissed | src/components/ScoreCard.jsx:30 | among the first `n` questions, correct plus missed (unanswered or wrong) is `n` |
| ScoreCard.IncorrectCountsMissed | src/components/ScoreCard.jsx:30 | with App's score, the incorrect figure is the number of questions unanswered or answered wrongly |
| ScoreCard.ObjectValues | src/App.jsx:248 | `Object.values(answers)` has at most one value per key below the bound |
| ScoreCard.CountMarks | src/components/ScoreCard.jsx:45-53 | the number of ✓ marks among the first `n` questions is at most `n` |
| ScoreCard.IsMarkedCorrect | src/components/ScoreCard.jsx:48 | a question beyond the end of the values array (`undefined`) is never marked ✓ |
| ScoreCard.ObjectValuesWithinPrefix | src/App.jsx:248 | below the end of the answered prefix, `Object.values` lists the answers by index |
| ScoreCard.ObjectValuesBeyondPrefix | src/App.jsx:248 | past the answered prefix there is nothing more to list |
| ScoreCard.ObjectValuesOfPrefix | src/App.jsx:248 | with answered keys exactly `0..m-1`, `Object.values` has length `m` and entry `i` is `answers[i]` |
| ScoreCard.MarksMatchScorePrefix | src/components/ScoreCard.jsx:48-49 | with prefix-shaped answers, the ✓ marks among the first `n` questions equal App's correct count there |
| ScoreCard.MarksMatchScore | src/components/ScoreCard.jsx:48-49 | with prefix-shaped answers, the card's ✓ count equals App's score |
| TabWarning.Remaining | src/components/TabWarning.jsx:5 | count plus remaining is the maximum; some remain exactly when the count is below the maximum |
| TabWarning.Headline | src/components/TabWarning.jsx:25 | the headline starts `warning ` and the number after it is the warning count |
| TabWarning.WarningDots | src/components/TabWarning.jsx:31-35 | exactly `maxWarnings` dots; dot `i` is used exactly when `i < warningCount` |
| TabWarning.UsedDots | src/components/TabWarning.jsx:34 | the used dots are at most all the dots |
| TabWarning.UsedDotsPrefix | src/components/TabWarning.jsx:31-35 | among the first `k` dots, `min(count, k)` are used |
| TabWarning.UsedDotsCount | src/components/TabWarning.jsx:31-35 | for a non-negative count, `min(count, maxWarnings)` dots are used |
| TabWarning.NoticeFor | src/components/TabWarning.jsx:39-48 | the remaining notice exactly while some remain, with that number, plural exactly above one; the last-warning notice otherwise |
| TabWarning.NoticeText | src/components/TabWarning.jsx:39-48 | the last-warning text exactly for the last-warning notice; a remaining notice starts with its number |
| TabWarning.ThreeWarningTexts | src/components/TabWarning.jsx:39-48 | with 3 allowed, count 1 reads "2 warnings remaining…", count 2 "1 warning remaining…", count 3 the last-warning text |
| ScoresRoute.IntValue | backend/routes/scores.js:12-14 | a field read as an integer is a number or a string; missing, null, booleans, arrays and objects are not |
| ScoresRoute.SaveErrors | backend/routes/scores.js:11-16 | each of the four messages is reported exactly when its check fails; at most four errors |
| ScoresRoute.Save | backend/routes/scores.js:17-32 | 400 exactly when a check fails, with the errors; otherwise score ≥ 0, total ≥ 1, time ≥ 0, `correctAnswers == score` and `correctAnswers + wrongAnswers == totalQuestions` |
| ScoresRoute.ScoreAboveTotalAccepted | backend/routes/scores.js:31-32 | a score above the question count is accepted and stores a negative wrong count |
| ScoresRoute.QueryInt | backend/routes/scores.js:66-67 | `parseInt(q)` or else `d`, never 0: the default for a missing, non-numeric or zero value, the parsed value otherwise |
| ScoresRoute.CeilDiv | backend/routes/scores.js:92 | `Math.ceil(total / limit)`, reached only with a positive limit: the fewest pages of `limit` rows that hold `total` (0 for no rows) |
| ScoresRoute.CeilDivUp | backend/routes/scores.js:92 | rounding `(total + limit - 1) / limit` down gives the page count |
| ScoresRoute.History | backend/routes/scores.js:63-100 | the 500 reply (`None`) exactly when the limit read is negative or the page read is below 1, which MySQL refuses in `LIMIT ? OFFSET ?`; otherwise page and limit as read, offset `(page-1)*limit >= 0` (0 on page 1), and the fewest pages that hold all rows (0 for none) |
| ScoresRoute.HistoryDefaults | backend/routes/scores.js:66-68 | with no query the reply is a page: page 1 of 10 rows at offset 0 |
| ScoresRoute.HistoryPage | backend/routes/scores.js:68-100 | for a page and a non-zero limit already read: the 500 reply exactly when MySQL refuses them, otherwise the pagination with offset `(page-1)*limit >= 0` and the covering page count |
| ScoresRoute.HistoryRefusesNegative | backend/routes/scores.js:66-100 | `?limit=-5` and `?page=-1` both end in the 500 reply |
| ScoresRoute.NegativeQuery | backend/routes/scores.js:66-67 | `parseInt` of a minus sign and one non-zero digit is that negative number |
| ScoresRoute.RowsOnPages | backend/routes/scores.js:68-92 | every row `k < total` lies on a reported page, between that page's offset and the next page's |
| ScoresRoute.LeaderboardLimit | backend/routes/scores.js:149-176 | 10 when missing, non-numeric or 0; the parsed value when positive; the 500 reply (`None`) exactly when the value read is negative |
| JsText.TwoDigits | src/components/Navigation.jsx:18 | `n.toString().padStart(2, '0')` is all digits, exactly two for `n < 100` |
| JsText.ParseInt | backend/routes/scores.js:66-67 | `parseInt` of an empty or blank text is `NaN`, and a negative result needs a leading minus |
| JsText.TwoDigitsRoundTrip | src/components/Navigation.jsx:18 | the padded field reads back to `n` |
| JsText.ParseIntDecimal | src/components/Dashboard.jsx:408 | `parseInt` of a number's decimal text, followed by anything that does not continue it, is that number |
| JsText.ParseIntNonNumeric | backend/routes/scores.js:66 | text starting with something other than blank, sign or digit (such as `undefined`) parses to `NaN` |
| JsText.ParsedOr | backend/routes/scores.js:66 | `parseInt(s)` or else `d` is `d` or the parsed value, and never 0 when `d` is not |
| Flows.StartFromDashboard | src/components/Dashboard.jsx:482-487 | after any dialog actions, Start Test puts the session on the test screen with `minutes*60` seconds in [300, 10800] and `min(count, bank size)` questions |
| Flows.TimeRunsOut | src/App.jsx:85-101 | in a one-minute test, 60 ticks and the scheduled auto-submit show the results and save one report of 60 seconds and score 0 |
| Flows.ThreeTabSwitches | src/App.jsx:104-141 | two switches leave one warning and nothing scheduled, becoming visible counts nothing, and the third schedules the auto-submit |
| Flows.SwitchAfterResults | src/App.jsx:104-105 | after the results show, switching away counts nothing and schedules nothing |
| Flows.RepeatedAutoSubmit | src/App.jsx:57-58 | two scheduled auto-submits in one attempt save the score once, when each callback runs to completion before the next |
| Flows.StepThroughThree | src/components/Navigation.jsx:48-72 | Next is disabled until an answer is chosen, the last question offers Submit, and going back keeps the answers |
| Flows.SubmitAtOnce | src/App.jsx:156-176 | Submit before any tick shows the results and saves one report with 0 seconds taken |
| Flows.RestartWithPendingSubmit | src/App.jsx:178-188 | Exit Test while the third warning's auto-submit waits: it hands `saveScore` a report of no questions and the full duration, which `/save` refuses with 400, so nothing is stored; the next attempt opens on the results with no countdown and no listeners |
| Flows.RunClockDown | src/App.jsx:85-101 | sixty runs of the interval on a one-minute attempt empty the clock and leave exactly one auto-submit waiting |
| Flows.ReportBody | src/services/api.js:82-92 | the posted body carries the report's score, question count and time as numbers, and an array with one entry per question |
| Flows.EmptyReportRefused | backend/routes/scores.js:13-24 | a report of no questions fails the `totalQuestions` check, so `/save` answers 400 and stores nothing |
| Flows.ReportAccepted | backend/routes/scores.js:11-30 | a report of at least one question and a non-negative time passes `/save`, which stores its score, count and time, with the score as the correct count |

## Left out

- Logging in and out: `handleLogin`, `handleLogout`, `Auth.jsx` and `backend/routes/auth.js`. They are
  password hashing, tokens and SQL. `isAuthenticated` is a constant of a session.
- `src/services/api.js`: `fetch` and `localStorage`. A save is an append to `reports`. A failed save
  is only logged and changes nothing local.
- The async race between two saves while `await apiService.saveScore` is pending. Each handler runs
  to completion in the model. One tab switch fires both `blur` and `visibilitychange`, so the race
  can save one attempt twice, which `Flows.RepeatedAutoSubmit` does not show.
- The SQL of `backend/routes/scores.js`. This covers the insert, the selects, averages, ordering and
  `/stats`. The row count `/history` reads is a parameter, and a stored row is returned as a value.
  Of MySQL's checks on `LIMIT ? OFFSET ?`, only the refusal of a negative value is modelled.
- ScoresRoute.History, ScoresRoute.LeaderboardLimit: a page or limit of `1e21` or more, which
  JavaScript writes with an exponent and MySQL cannot parse, is treated like any other positive
  value, and so is a value too large for `LIMIT`. Integers are unbounded here.
- React rendering and hook scheduling. The real delays of `setInterval` and `setTimeout` are
  replaced by explicit method calls.
- `Math.random`. The shuffle is driven by `picks`; only the permutation property is stated, not the
  distribution.
- Floating point:
  - the `toFixed` percentages, which are a `real` input to `GetGrade` and `ScoreBand`;
  - the progress-bar width;
  - the `mins / 60` hour labels of the duration presets.
- Locale date formatting and the asynchronous loading of the dashboard data.
- `Question.jsx`, which is markup only.
- Navigation.FormatClock: takes a non-negative number of seconds. A negative `timeRemaining` cannot
  occur in the session.
- ScoresRoute.IntValue: does not model the `isInt` check of an array value, nor a number whose text
  form uses an exponent (`1e21`). Every integral JSON number is accepted.
- JsText.ParseInt: integers are unbounded, so the precision loss of `parseInt` on very long digit
  strings is not modelled.
- Session.TestSession.StartTest: requires the dashboard screen, the only place `startTest` is passed
  to.
- Session.TestSession.SelectAnswer, Session.TestSession.Next, Session.TestSession.Prev,
  Session.TestSession.Submit: require the test screen, where their controls are rendered.
  - SelectAnswer also requires a valid option index.
  - Next also requires an answer at the current index, since its button is disabled otherwise
    (src/components/Navigation.jsx:61).
