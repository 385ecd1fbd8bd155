/**
 * src/components/ScoreCard.jsx: the results card — the grade and its
 * message for the percentage, the incorrect count, and the ✓/✗ mark per
 * question.  The percentage is an input: its `toFixed(1)` rounding is not
 * part of this model.
 */
module ScoreCard {
  import opened Wrappers
  import opened Scoring

  datatype Grade = APlus | A | B | C | D

  /** `getGrade`: the first band, from the top, whose threshold the percentage reaches. */
  function GetGrade(percentage: real): (g: Grade)
    ensures g == APlus <==> percentage >= 90.0
    ensures g == A <==> 80.0 <= percentage < 90.0
    ensures g == B <==> 70.0 <= percentage < 80.0
    ensures g == C <==> 60.0 <= percentage < 70.0
    ensures g == D <==> percentage < 60.0
  {
    if percentage >= 90.0 then APlus
    else if percentage >= 80.0 then A
    else if percentage >= 70.0 then B
    else if percentage >= 60.0 then C
    else D
  }

  /** The grade letter: two characters only for A+, and an A exactly for the two top grades. */
  function GradeLabel(g: Grade): (text: string)
    ensures 1 <= |text| <= 2 && (|text| == 2 <==> g == APlus)
    ensures text[0] == 'A' <==> g == APlus || g == A
  {
    match g
    case APlus => "A+"
    case A => "A"
    case B => "B"
    case C => "C"
    case D => "D"
  }

  /** The message: an exclamation exactly for the grades from B up. */
  function GradeMessage(g: Grade): (message: string)
    ensures |message| > 0
    ensures message[|message| - 1] == '!' <==> g == APlus || g == A || g == B
  {
    match g
    case APlus => "Outstanding!"
    case A => "Excellent!"
    case B => "Good Job!"
    case C => "Fair"
    case D => "Needs Improvement"
  }

  /** Position of a grade from the bottom. */
  function GradeRank(g: Grade): (r: nat)
    ensures r <= 4
  {
    match g
    case D => 0
    case C => 1
    case B => 2
    case A => 3
    case APlus => 4
  }

  /** A higher percentage never gets a lower grade. */
  lemma GradeMonotone(p: real, q: real)
    requires p <= q
    ensures GradeRank(GetGrade(p)) <= GradeRank(GetGrade(q))
  {
  }

  /** Each grade has its own label and its own message, so the message tells the grade. */
  lemma GradeTextsDistinct(g: Grade, h: Grade)
    ensures GradeLabel(g) == GradeLabel(h) <==> g == h
    ensures GradeMessage(g) == GradeMessage(h) <==> g == h
  {
  }

  /** The "Incorrect Answers" figure: every question not counted correct. */
  function IncorrectCount(score: int, totalQuestions: int): (r: int)
    ensures score + r == totalQuestions
  {
    totalQuestions - score
  }

  /** The questions among the first `n` left unanswered or answered wrongly. */
  function MissedIndices(questions: seq<Question>, answers: map<int, int>, n: nat): set<int>
    requires n <= |questions|
  {
    set i | 0 <= i < n && !AnsweredCorrectly(questions, answers, i)
  }

  lemma {:induction false} CorrectPlusMissed(questions: seq<Question>, answers: map<int, int>, n: nat)
    requires n <= |questions|
    ensures CountCorrect(questions, answers, n) + |MissedIndices(questions, answers, n)| == n
  {
    if n > 0 {
      CorrectPlusMissed(questions, answers, n - 1);
      var before := MissedIndices(questions, answers, n - 1);
      assert n - 1 !in before;
      if AnsweredCorrectly(questions, answers, n - 1) {
        assert MissedIndices(questions, answers, n) == before;
      } else {
        assert MissedIndices(questions, answers, n) == before + {n - 1};
      }
    }
  }

  /** With App's score, the incorrect figure counts the questions left unanswered or answered wrongly. */
  lemma IncorrectCountsMissed(questions: seq<Question>, answers: map<int, int>)
    ensures IncorrectCount(Score(questions, answers), |questions|)
            == |MissedIndices(questions, answers, |questions|)|
  {
    CorrectPlusMissed(questions, answers, |questions|);
  }

  /**
   * `Object.values(answers)` for an answer object whose keys lie in
   * 0..bound-1: the values in ascending key order.
   */
  function ObjectValues(answers: map<int, int>, bound: nat): (vs: seq<int>)
    ensures |vs| <= bound
  {
    if bound == 0 then []
    else ObjectValues(answers, bound - 1) + (if bound - 1 in answers then [answers[bound - 1]] else [])
  }

  /** The ✓ mark: `answers[index] === q.correctAnswer` on the array the card receives. */
  predicate IsMarkedCorrect(values: seq<int>, questions: seq<Question>, index: nat)
    requires index < |questions|
    ensures index >= |values| ==> !IsMarkedCorrect(values, questions, index)
  {
    index < |values| && values[index] == questions[index].correctAnswer
  }

  /** Number of ✓ marks among the first `n` questions. */
  function CountMarks(values: seq<int>, questions: seq<Question>, n: nat): (c: nat)
    requires n <= |questions|
    ensures c <= n
  {
    if n == 0 then 0
    else CountMarks(values, questions, n - 1) + (if IsMarkedCorrect(values, questions, n - 1) then 1 else 0)
  }

  /** Below the end of the answered prefix 0..m-1, `Object.values` lists the answers by index. */
  lemma {:induction false} ObjectValuesWithinPrefix(answers: map<int, int>, m: nat, bound: nat)
    requires bound <= m
    requires forall i :: i in answers <==> 0 <= i < m
    ensures |ObjectValues(answers, bound)| == bound
    ensures forall i :: 0 <= i < bound ==> ObjectValues(answers, bound)[i] == answers[i]
  {
    if bound > 0 {
      ObjectValuesWithinPrefix(answers, m, bound - 1);
      assert bound - 1 in answers;
    }
  }

  /** Past the answered prefix there is nothing more to list. */
  lemma {:induction false} ObjectValuesBeyondPrefix(answers: map<int, int>, m: nat, bound: nat)
    requires m <= bound
    requires forall i :: i in answers <==> 0 <= i < m
    ensures ObjectValues(answers, bound) == ObjectValues(answers, m)
  {
    if bound > m {
      ObjectValuesBeyondPrefix(answers, m, bound - 1);
      assert bound - 1 !in answers;
    }
  }

  /** When the answered keys are exactly 0..m-1, `Object.values` lists them by index. */
  lemma ObjectValuesOfPrefix(answers: map<int, int>, m: nat, bound: nat)
    requires m <= bound
    requires forall i :: i in answers <==> 0 <= i < m
    ensures |ObjectValues(answers, bound)| == m
    ensures forall i :: 0 <= i < m ==> ObjectValues(answers, bound)[i] == answers[i]
  {
    ObjectValuesBeyondPrefix(answers, m, bound);
    ObjectValuesWithinPrefix(answers, m, m);
  }

  /**
   * With prefix-shaped answers, the ✓ marks on `Object.values(answers)` are
   * exactly App's correct answers, so the card shows as many ✓ as the score.
   */
  lemma {:induction false} MarksMatchScorePrefix(questions: seq<Question>, answers: map<int, int>, m: nat, n: nat)
    requires m <= |questions| && n <= |questions|
    requires forall i :: i in answers <==> 0 <= i < m
    ensures CountMarks(ObjectValues(answers, |questions|), questions, n) == CountCorrect(questions, answers, n)
  {
    ObjectValuesOfPrefix(answers, m, |questions|);
    if n > 0 {
      MarksMatchScorePrefix(questions, answers, m, n - 1);
    }
  }

  lemma MarksMatchScore(questions: seq<Question>, answers: map<int, int>, m: nat)
    requires m <= |questions|
    requires forall i :: i in answers <==> 0 <= i < m
    ensures CountMarks(ObjectValues(answers, |questions|), questions, |questions|) == Score(questions, answers)
  {
    MarksMatchScorePrefix(questions, answers, m, |questions|);
  }
}
