/**
 * Scoring of the ten-question quiz: the answer sheet, the score of a
 * submitted sheet and resetting it. Only the index of each question's
 * correct option matters here.
 */
module QuizScoring {
  /** Number of questions on the quiz. */
  const QuestionCount: nat := 10

  /** Index of the correct option of each question, in question order. */
  const CorrectAnswers: seq<int> := [1, 1, 1, 0, 0, 1, 2, 1, 0, 2]

  /** The value of an answer slot that has not been answered. */
  const Unanswered: int := -1

  /** An untouched answer sheet. */
  function BlankAnswers(): (answers: seq<int>)
    ensures |answers| == QuestionCount
    ensures forall i :: 0 <= i < |answers| ==> answers[i] == Unanswered
  {
    seq(QuestionCount, _ => Unanswered)
  }

  /** One point for every position whose answer is that question's correct option, summed left to right. */
  function Score(answers: seq<int>): (points: nat)
    requires |answers| <= |CorrectAnswers|
    ensures points <= |answers|
  {
    if answers == [] then 0
    else
      var last := |answers| - 1;
      Score(answers[..last]) + (if answers[last] == CorrectAnswers[last] then 1 else 0)
  }

  /** Full marks exactly when every answer is correct. */
  lemma {:induction false} FullScoreIff(answers: seq<int>)
    requires |answers| <= |CorrectAnswers|
    ensures Score(answers) == |answers| <==> forall i :: 0 <= i < |answers| ==> answers[i] == CorrectAnswers[i]
  {
    if answers != [] {
      var last := |answers| - 1;
      FullScoreIff(answers[..last]);
      assert forall i :: 0 <= i < last ==> answers[..last][i] == answers[i];
    }
  }

  /** A score of zero exactly when no answer is correct. */
  lemma {:induction false} ZeroScoreIff(answers: seq<int>)
    requires |answers| <= |CorrectAnswers|
    ensures Score(answers) == 0 <==> forall i :: 0 <= i < |answers| ==> answers[i] != CorrectAnswers[i]
  {
    if answers != [] {
      var last := |answers| - 1;
      ZeroScoreIff(answers[..last]);
      assert forall i :: 0 <= i < last ==> answers[..last][i] == answers[i];
    }
  }

  /** A blank sheet scores nothing, since every correct index is an option index. */
  lemma BlankScoresZero()
    ensures Score(BlankAnswers()) == 0
  {
    ZeroScoreIff(BlankAnswers());
  }

  /** Answering one question changes the score by that question's point alone. */
  lemma {:induction false} AnswerChangesOnePoint(answers: seq<int>, q: nat, a: int)
    requires |answers| <= |CorrectAnswers| && q < |answers|
    ensures Score(answers[q := a]) + (if answers[q] == CorrectAnswers[q] then 1 else 0)
         == Score(answers) + (if a == CorrectAnswers[q] then 1 else 0)
  {
    var last := |answers| - 1;
    if q == last {
      assert answers[q := a][..last] == answers[..last];
    } else {
      assert answers[q := a][..last] == answers[..last][q := a];
      AnswerChangesOnePoint(answers[..last], q, a);
    }
  }

  class Quiz {
    var answers: seq<int>
    var submitted: bool
    var score: nat

    /** One slot per question, and a score no larger than the number of questions. */
    ghost predicate Valid()
      reads this
    {
      |answers| == QuestionCount && score <= QuestionCount
    }

    /** The page starts with a blank, unsubmitted sheet. */
    constructor ()
      ensures Valid()
      ensures answers == BlankAnswers() && !submitted && score == 0
    {
      answers := BlankAnswers();
      submitted := false;
      score := 0;
    }

    /** Records the chosen option for one question; the other slots keep their answers. */
    method HandleQuizAnswer(questionIndex: nat, answerIndex: int)
      requires Valid()
      requires questionIndex < QuestionCount
      modifies this
      ensures Valid()
      ensures answers == old(answers)[questionIndex := answerIndex]
      ensures forall i :: 0 <= i < |answers| && i != questionIndex ==> answers[i] == old(answers)[i]
      ensures submitted == old(submitted) && score == old(score)
    {
      answers := answers[questionIndex := answerIndex];
    }

    /** Scores the sheet and marks it submitted. */
    method SubmitQuiz()
      requires Valid()
      modifies this
      ensures Valid()
      ensures score == Score(answers) && submitted
      ensures answers == old(answers)
      ensures score == QuestionCount <==> answers == CorrectAnswers
    {
      score := Score(answers);
      submitted := true;
      FullScoreIff(answers);
    }

    /** Back to a blank sheet with no score. */
    method ResetQuiz()
      requires Valid()
      modifies this
      ensures Valid()
      ensures answers == BlankAnswers() && !submitted && score == 0
      ensures score == Score(answers)
    {
      answers := BlankAnswers();
      submitted := false;
      score := 0;
      BlankScoresZero();
    }
  }
}
