/**
 * The quiz session of `QuizModule`: a mode (topic selection, a quiz in
 * progress, the results), the index of the question on screen, the answers
 * chosen so far and whether the explanation is shown; and the score the
 * results screen computes from them.
 */
module QuizModule {
  import Rounding

  datatype Mode = Select | Active | Results

  datatype Question = Question(prompt: string, options: seq<string>, correctAnswer: int, explanation: string)

  /** The results screen's summary. */
  datatype Score = Score(correct: nat, total: nat, percentage: int)

  /** Question `i` was answered, and with its correct option; an unanswered question is wrong. */
  predicate AnsweredCorrectly(questions: seq<Question>, answers: map<int, int>, i: int)
    requires 0 <= i < |questions|
    ensures AnsweredCorrectly(questions, answers, i) ==> i in answers
    ensures i in answers ==> (AnsweredCorrectly(questions, answers, i) <==> answers[i] == questions[i].correctAnswer)
  {
    i in answers && answers[i] == questions[i].correctAnswer
  }

  /** The number of correctly answered questions among the first `n`, counted one question at a time. */
  function CorrectAmong(questions: seq<Question>, answers: map<int, int>, n: nat): (count: nat)
    requires n <= |questions|
    ensures count <= n
  {
    if n == 0 then 0
    else CorrectAmong(questions, answers, n - 1) + if AnsweredCorrectly(questions, answers, n - 1) then 1 else 0
  }

  /** The correctly answered questions, as a set of indices: the reference definition of the score. */
  function CorrectIndices(questions: seq<Question>, answers: map<int, int>, n: nat): set<int>
    requires n <= |questions|
  {
    set i | 0 <= i < n && AnsweredCorrectly(questions, answers, i)
  }

  /**
   * The count agrees with the set of correct answers, lies between 0 and `n`,
   * is `n` when every answer is correct and 0 when none is.
   */
  lemma {:induction false} CorrectAmongCounts(questions: seq<Question>, answers: map<int, int>, n: nat)
    requires n <= |questions|
    ensures CorrectAmong(questions, answers, n) == |CorrectIndices(questions, answers, n)|
    ensures CorrectAmong(questions, answers, n) <= n
    ensures (forall i :: 0 <= i < n ==> AnsweredCorrectly(questions, answers, i)) ==> CorrectAmong(questions, answers, n) == n
    ensures (forall i :: 0 <= i < n ==> !AnsweredCorrectly(questions, answers, i)) ==> CorrectAmong(questions, answers, n) == 0
  {
    if n > 0 {
      CorrectAmongCounts(questions, answers, n - 1);
      var before := CorrectIndices(questions, answers, n - 1);
      if AnsweredCorrectly(questions, answers, n - 1) {
        assert CorrectIndices(questions, answers, n) == before + {n - 1};
      } else {
        assert CorrectIndices(questions, answers, n) == before;
      }
    }
  }

  /**
   * Choosing answer `a` for question `c` moves the score by at most one:
   * only question `c` can change from wrong to right or back.
   */
  lemma {:induction false} AnswerMovesOneQuestion(questions: seq<Question>, answers: map<int, int>, c: int, a: int)
    requires 0 <= c < |questions|
    ensures CorrectIndices(questions, answers[c := a], |questions|) - {c}
         == CorrectIndices(questions, answers, |questions|) - {c}
    ensures c in CorrectIndices(questions, answers[c := a], |questions|) <==> a == questions[c].correctAnswer
  {
    var n := |questions|;
    forall i | i != c && 0 <= i < n
      ensures AnsweredCorrectly(questions, answers[c := a], i) == AnsweredCorrectly(questions, answers, i)
    {
    }
  }

  class QuizSession {
    /** The question bank; in the component, a fixed non-empty list. */
    const questions: seq<Question>
    var mode: Mode
    var currentQuestion: int
    /** `selectedAnswers`: question index to chosen option index. */
    var selectedAnswers: map<int, int>
    var showExplanation: bool

    /** The index stays on a question and every answer belongs to a question. */
    ghost predicate Valid()
      reads this
    {
      && |questions| > 0
      && 0 <= currentQuestion < |questions|
      && forall i :: i in selectedAnswers ==> 0 <= i < |questions|
    }

    /**
     * Every question before the one on screen has an answer: what the Next
     * button, enabled only for an answered question, keeps true during a quiz.
     */
    ghost predicate AnsweredSoFar()
      reads this
    {
      forall i :: 0 <= i < currentQuestion ==> i in selectedAnswers
    }

    /** Every question has an answer. */
    ghost predicate AllAnswered()
      reads this
    {
      forall i :: 0 <= i < |questions| ==> i in selectedAnswers
    }

    /** The component's initial state: topic selection. */
    constructor(questions: seq<Question>)
      requires |questions| > 0
      ensures Valid() && this.questions == questions
      ensures mode == Select && currentQuestion == 0 && selectedAnswers == map[] && !showExplanation
    {
      this.questions := questions;
      mode := Select;
      currentQuestion := 0;
      selectedAnswers := map[];
      showExplanation := false;
    }

    /** `startQuiz`: a fresh attempt at the first question. */
    method StartQuiz()
      requires Valid()
      modifies this
      ensures Valid()
      ensures mode == Active && currentQuestion == 0 && selectedAnswers == map[] && !showExplanation
      ensures AnsweredSoFar() && !HasAnswered()
    {
      mode := Active;
      currentQuestion := 0;
      selectedAnswers := map[];
      showExplanation := false;
    }

    /** `handleAnswerSelect`: record (or overwrite) the answer to the question on screen, and nothing else. */
    method AnswerSelect(answerIndex: int)
      requires Valid()
      modifies this
      ensures Valid()
      ensures selectedAnswers == old(selectedAnswers)[currentQuestion := answerIndex]
      ensures forall i :: i != currentQuestion ==>
        (i in selectedAnswers <==> i in old(selectedAnswers))
        && (i in selectedAnswers ==> selectedAnswers[i] == old(selectedAnswers)[i])
      ensures mode == old(mode) && currentQuestion == old(currentQuestion) && showExplanation == old(showExplanation)
      ensures HasAnswered() && NextEnabled()
      ensures old(AnsweredSoFar()) ==> AnsweredSoFar()
    {
      selectedAnswers := selectedAnswers[currentQuestion := answerIndex];
    }

    /** `handleNext`: the next question with the explanation hidden, or the results after the last one. */
    method Next()
      requires Valid()
      modifies this
      ensures Valid()
      ensures selectedAnswers == old(selectedAnswers)
      ensures old(currentQuestion) < |questions| - 1 ==>
        currentQuestion == old(currentQuestion) + 1 && !showExplanation && mode == old(mode)
      ensures old(currentQuestion) == |questions| - 1 ==>
        mode == Results && currentQuestion == old(currentQuestion) && showExplanation == old(showExplanation)
      // pressed through the enabled button, Next keeps every passed question answered,
      // and Finish reaches the results with every question answered
      ensures old(NextEnabled()) && old(AnsweredSoFar()) ==> AnsweredSoFar()
      ensures old(NextEnabled()) && old(AnsweredSoFar()) && old(currentQuestion) == |questions| - 1 ==> AllAnswered()
    {
      if currentQuestion < |questions| - 1 {
        currentQuestion := currentQuestion + 1;
        showExplanation := false;
      } else {
        mode := Results;
      }
    }

    /** `handlePrevious`: the previous question with the explanation hidden; nothing at the first. */
    method Previous()
      requires Valid()
      modifies this
      ensures Valid()
      ensures selectedAnswers == old(selectedAnswers) && mode == old(mode)
      ensures old(currentQuestion) > 0 ==> currentQuestion == old(currentQuestion) - 1 && !showExplanation
      ensures old(currentQuestion) == 0 ==> currentQuestion == 0 && showExplanation == old(showExplanation)
      ensures currentQuestion != old(currentQuestion) <==> old(PreviousEnabled())
      ensures old(AnsweredSoFar()) ==> AnsweredSoFar()
    {
      if currentQuestion > 0 {
        currentQuestion := currentQuestion - 1;
        showExplanation := false;
      }
    }

    /** `checkAnswer`: show the explanation. */
    method CheckAnswer()
      requires Valid()
      modifies this
      ensures Valid() && showExplanation && !CheckEnabled()
      ensures mode == old(mode) && currentQuestion == old(currentQuestion) && selectedAnswers == old(selectedAnswers)
    {
      showExplanation := true;
    }

    /** "Try Another Quiz": back to topic selection; the rest stays until the next start. */
    method BackToSelect()
      requires Valid()
      modifies this
      ensures Valid() && mode == Select
      ensures currentQuestion == old(currentQuestion) && selectedAnswers == old(selectedAnswers)
      ensures showExplanation == old(showExplanation)
    {
      mode := Select;
    }

    /** `hasAnswered`: the question on screen has an answer. */
    function HasAnswered(): (b: bool)
      reads this
      ensures b <==> currentQuestion in selectedAnswers
    {
      currentQuestion in selectedAnswers
    }

    /** `isCorrect`: the on-screen verdict agrees with how the results screen scores this question. */
    function IsCorrect(): (b: bool)
      reads this
      requires Valid()
      ensures b ==> HasAnswered()
      ensures b <==> AnsweredCorrectly(questions, selectedAnswers, currentQuestion)
    {
      HasAnswered() && selectedAnswers[currentQuestion] == questions[currentQuestion].correctAnswer
    }

    /** The Next/Finish button is enabled only once the question on screen is answered. */
    function NextEnabled(): (b: bool)
      reads this
      ensures b <==> HasAnswered()
      ensures b && AnsweredSoFar() ==> forall i :: 0 <= i <= currentQuestion ==> i in selectedAnswers
    {
      HasAnswered()
    }

    /** The Previous button is disabled on the first question. */
    function PreviousEnabled(): (b: bool)
      reads this
      ensures b <==> currentQuestion != 0
    {
      currentQuestion != 0
    }

    /** "Check Answer" is offered for an answered question whose explanation is hidden. */
    function CheckEnabled(): (b: bool)
      reads this
      ensures b <==> HasAnswered() && !showExplanation
    {
      !showExplanation && HasAnswered()
    }

    /** `calculateScore`: the loop over the questions counting matching answers, and the rounded percentage. */
    method CalculateScore() returns (score: Score)
      requires Valid()
      ensures score.total == |questions|
      ensures score.correct == |CorrectIndices(questions, selectedAnswers, |questions|)|
      ensures score.correct <= score.total
      ensures score.percentage == Rounding.RoundedPercent(score.correct, score.total)
      ensures 0 <= score.percentage <= 100
      ensures (forall i :: 0 <= i < |questions| ==> AnsweredCorrectly(questions, selectedAnswers, i)) ==>
        score.correct == score.total && score.percentage == 100
      ensures (forall i :: 0 <= i < |questions| ==> !AnsweredCorrectly(questions, selectedAnswers, i)) ==>
        score.correct == 0 && score.percentage == 0
    {
      var correct := 0;
      var i := 0;
      while i < |questions|
        invariant 0 <= i <= |questions|
        invariant correct == CorrectAmong(questions, selectedAnswers, i)
      {
        if i in selectedAnswers && selectedAnswers[i] == questions[i].correctAnswer {
          correct := correct + 1;
        }
        i := i + 1;
      }
      CorrectAmongCounts(questions, selectedAnswers, |questions|);
      Rounding.RoundedPercentInRange(correct, |questions|);
      Rounding.RoundedPercentExtremes(|questions|);
      score := Score(correct, |questions|, Rounding.RoundedPercent(correct, |questions|));
    }
  }
}
