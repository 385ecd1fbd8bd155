/**
 * Scoring of one attempt in src/App.jsx: `calculateScoreFromState` and the
 * per-question details (`questions.map(...)`) handed to `saveScore`.
 * `answers` is the sparse answer object: question index to chosen option.
 */
module Scoring {
  import opened Wrappers

  /** One record of the question bank (its category and explanation are display-only). */
  datatype Question = Question(id: int, text: string, topic: string, options: seq<string>, correctAnswer: int)

  /** `answers[i] === questions[i].correctAnswer`; an absent entry is `undefined` and never equal. */
  predicate AnsweredCorrectly(questions: seq<Question>, answers: map<int, int>, i: int)
    requires 0 <= i < |questions|
  {
    i in answers && answers[i] == questions[i].correctAnswer
  }

  /** Number of correctly answered questions among the first `n`. */
  function CountCorrect(questions: seq<Question>, answers: map<int, int>, n: nat): (c: nat)
    requires n <= |questions|
    ensures c <= n
  {
    if n == 0 then 0
    else CountCorrect(questions, answers, n - 1) + (if AnsweredCorrectly(questions, answers, n - 1) then 1 else 0)
  }

  /** The score of an attempt. */
  function Score(questions: seq<Question>, answers: map<int, int>): (s: nat)
    ensures s <= |questions|
    ensures answers == map[] ==> s == 0
  {
    NoAnswersScoreZero(questions, |questions|);
    CountCorrect(questions, answers, |questions|)
  }

  /** The indices the score counts. */
  function CorrectIndices(questions: seq<Question>, answers: map<int, int>, n: nat): set<int>
    requires n <= |questions|
  {
    set i | 0 <= i < n && AnsweredCorrectly(questions, answers, i)
  }

  lemma CorrectIndicesStep(questions: seq<Question>, answers: map<int, int>, n: nat)
    requires 0 < n <= |questions|
    ensures AnsweredCorrectly(questions, answers, n - 1) ==>
              CorrectIndices(questions, answers, n) == CorrectIndices(questions, answers, n - 1) + {n - 1}
    ensures !AnsweredCorrectly(questions, answers, n - 1) ==>
              CorrectIndices(questions, answers, n) == CorrectIndices(questions, answers, n - 1)
    ensures n - 1 !in CorrectIndices(questions, answers, n - 1)
  {
  }

  lemma {:induction false} CountCorrectIsCardinality(questions: seq<Question>, answers: map<int, int>, n: nat)
    requires n <= |questions|
    ensures CountCorrect(questions, answers, n) == |CorrectIndices(questions, answers, n)|
  {
    if n == 0 {
      assert CorrectIndices(questions, answers, 0) == {};
    } else {
      CountCorrectIsCardinality(questions, answers, n - 1);
      CorrectIndicesStep(questions, answers, n);
    }
  }

  /**
   * The score is the number of indices below N whose answer equals the
   * question's correct option: it only counts answered indices and lies in 0..N.
   */
  lemma ScoreCountsCorrectAnswers(questions: seq<Question>, answers: map<int, int>)
    ensures Score(questions, answers) == |CorrectIndices(questions, answers, |questions|)|
    ensures CorrectIndices(questions, answers, |questions|) <= answers.Keys
    ensures 0 <= Score(questions, answers) <= |questions|
  {
    CountCorrectIsCardinality(questions, answers, |questions|);
  }

  /** With no answers at all the score is 0. */
  lemma {:induction false} NoAnswersScoreZero(questions: seq<Question>, n: nat)
    requires n <= |questions|
    ensures CountCorrect(questions, map[], n) == 0
  {
    if n > 0 {
      NoAnswersScoreZero(questions, n - 1);
    }
  }

  /** `calculateScoreFromState`: a `forEach` over the questions that counts correct answers. */
  method CalculateScore(questions: seq<Question>, answers: map<int, int>) returns (score: nat)
    ensures score == Score(questions, answers)
    ensures score <= |questions|
  {
    score := 0;
    var index := 0;
    while index < |questions|
      invariant 0 <= index <= |questions|
      invariant score == CountCorrect(questions, answers, index)
    {
      if index in answers && answers[index] == questions[index].correctAnswer {
        score := score + 1;
      }
      index := index + 1;
    }
  }

  /** One entry of the `answers` array sent with a saved score. */
  datatype AnswerDetail = AnswerDetail(questionId: int, question: string, userAnswer: Option<int>, correctAnswer: int, isCorrect: bool)

  /** The entry for question `i`. */
  function Detail(questions: seq<Question>, answers: map<int, int>, i: int): (d: AnswerDetail)
    requires 0 <= i < |questions|
    ensures d.questionId == questions[i].id && d.correctAnswer == questions[i].correctAnswer
    ensures d.userAnswer == (if i in answers then Some(answers[i]) else None)
    ensures d.isCorrect <==> AnsweredCorrectly(questions, answers, i)
  {
    AnswerDetail(questions[i].id, questions[i].text,
                 if i in answers then Some(answers[i]) else None,
                 questions[i].correctAnswer,
                 i in answers && answers[i] == questions[i].correctAnswer)
  }

  /** The entries for the first `n` questions. */
  function DetailsPrefix(questions: seq<Question>, answers: map<int, int>, n: nat): (details: seq<AnswerDetail>)
    requires n <= |questions|
    ensures |details| == n
    ensures forall i :: 0 <= i < n ==> details[i] == Detail(questions, answers, i)
  {
    if n == 0 then [] else DetailsPrefix(questions, answers, n - 1) + [Detail(questions, answers, n - 1)]
  }

  /** `questions.map((q, index) => ({...}))` in the score report: one entry per question, in order. */
  function AnswerDetails(questions: seq<Question>, answers: map<int, int>): (details: seq<AnswerDetail>)
    ensures |details| == |questions|
    ensures forall i :: 0 <= i < |details| ==> details[i] == Detail(questions, answers, i)
  {
    DetailsPrefix(questions, answers, |questions|)
  }

  /** Number of details flagged correct. */
  function CountFlagged(details: seq<AnswerDetail>): (c: nat)
    ensures c <= |details|
  {
    if details == [] then 0
    else CountFlagged(details[..|details| - 1]) + (if details[|details| - 1].isCorrect then 1 else 0)
  }

  lemma {:induction false} CountFlaggedPrefix(questions: seq<Question>, answers: map<int, int>, n: nat)
    requires n <= |questions|
    ensures CountFlagged(AnswerDetails(questions, answers)[..n]) == CountCorrect(questions, answers, n)
  {
    var d := AnswerDetails(questions, answers);
    if n > 0 {
      CountFlaggedPrefix(questions, answers, n - 1);
      assert d[..n][..n - 1] == d[..n - 1];
    }
  }

  /** The reported per-question `isCorrect` flags add up to the reported score. */
  lemma DetailsAgreeWithScore(questions: seq<Question>, answers: map<int, int>)
    ensures CountFlagged(AnswerDetails(questions, answers)) == Score(questions, answers)
  {
    var d := AnswerDetails(questions, answers);
    CountFlaggedPrefix(questions, answers, |questions|);
    assert d[..|questions|] == d;
  }
}
