/**
 * The quiz screen's state machine: the current question index, the answer
 * chosen for each question, and the submitted results. Submission goes
 * through the quiz table and credits the progress store.
 */
module QuizInterface {
  import opened Js
  import opened QuizService
  import Progress = UserProgressService

  /**
   * `quiz.questions.map((_, index) => answers[index])`: one entry per
   * question, absent where the question was not answered.
   */
  function AnswerArray(answers: map<nat, int>, n: nat): (r: seq<Option<int>>)
    ensures |r| == n
    ensures forall i :: 0 <= i < n ==> (r[i].Some? <==> i in answers)
    ensures forall i :: 0 <= i < n && i in answers ==> r[i] == Some(answers[i])
  {
    seq(n, i => if i in answers then Some(answers[i]) else None)
  }

  /** Grading the answer array counts exactly the answered questions whose choice is right. */
  lemma {:induction false} AnswerArrayCorrect(questions: seq<Question>, answers: map<nat, int>, k: nat)
    requires k <= |questions|
    ensures CorrectUpTo(questions, AnswerArray(answers, |questions|), k)
            == |set i: nat | i < k && i in answers && answers[i] == questions[i].correctAnswer|
  {
    var arr := AnswerArray(answers, |questions|);
    if k > 0 {
      AnswerArrayCorrect(questions, answers, k - 1);
      var prev := set i: nat | i < k - 1 && i in answers && answers[i] == questions[i].correctAnswer;
      var cur := set i: nat | i < k && i in answers && answers[i] == questions[i].correctAnswer;
      if k - 1 in answers && answers[k - 1] == questions[k - 1].correctAnswer {
        assert cur == prev + {k - 1};
      } else {
        assert cur == prev;
      }
    }
  }

  /** XP credited under the source 'quiz' only ever changes the total, as long as no course is called 'quiz'. */
  lemma QuizXpTouchesOnlyTotal(p: Progress.UserProgress, xp: int)
    requires "quiz" !in p.coursesProgress
    ensures Progress.AddXPTo(p, xp, "quiz") == p.(totalXP := p.totalXP + xp)
  {
    assert Progress.AddXPTo(p, xp, "quiz").coursesProgress == p.coursesProgress;
  }

  class QuizSession {
    /** The `quiz` prop. */
    const quiz: Quiz
    var currentQuestion: nat
    var answers: map<nat, int>
    var showResults: bool
    var results: Option<QuizResult>

    /** The index stays on a question, answers are keyed by question, results come before the results view. */
    predicate Valid()
      reads this
    {
      |quiz.questions| > 0
      && currentQuestion < |quiz.questions|
      && (forall k :: k in answers ==> k < |quiz.questions|)
      && (showResults ==> results.Some?)
    }

    constructor (quiz: Quiz)
      requires |quiz.questions| > 0
      ensures Valid() && this.quiz == quiz
      ensures currentQuestion == 0 && answers == map[] && !showResults && results == None
    {
      this.quiz := quiz;
      currentQuestion := 0;
      answers := map[];
      showResults := false;
      results := None;
    }

    /** `isAnswered`. */
    predicate IsAnswered()
      reads this
    {
      currentQuestion in answers
    }

    /** `handleAnswerSelect(answerIndex)`: records or overwrites the current question's answer only. */
    method SelectAnswer(answerIndex: int)
      requires Valid() && !showResults
      modifies this
      ensures Valid()
      ensures answers == old(answers)[currentQuestion := answerIndex]
      ensures currentQuestion == old(currentQuestion) && showResults == old(showResults) && results == old(results)
    {
      answers := answers[currentQuestion := answerIndex];
    }

    /** `handlePrevious()`: one question back, never below the first. */
    method Previous()
      requires Valid()
      modifies this
      ensures Valid()
      ensures currentQuestion == if old(currentQuestion) > 0 then old(currentQuestion) - 1 else 0
      ensures answers == old(answers) && showResults == old(showResults) && results == old(results)
    {
      if currentQuestion > 0 {
        currentQuestion := currentQuestion - 1;
      }
    }

    /**
     * `handleSubmitQuiz()`: grades the answer array; on success shows the
     * results and credits positive XP under 'quiz'; a failed submission
     * leaves everything as it was.
     */
    method Submit(table: QuizTable, store: Progress.ProgressStore)
      requires Valid()
      requires table.GetById(quiz.id).Ok? ==> |table.GetById(quiz.id).value.questions| > 0
      modifies this, store
      ensures Valid()
      ensures table.GetById(quiz.id).Err? ==>
                showResults == old(showResults) && results == old(results) && store.Get() == old(store.Get())
      ensures table.GetById(quiz.id).Ok? ==>
                var graded := Grade(table.GetById(quiz.id).value, AnswerArray(old(answers), |quiz.questions|));
                results == Some(graded) && showResults
                && store.Get() == (if graded.xpEarned > 0 then Progress.AddXPTo(old(store.Get()), graded.xpEarned, "quiz")
                                   else old(store.Get()))
      ensures currentQuestion == old(currentQuestion) && answers == old(answers)
    {
      var r := table.SubmitQuiz(quiz.id, AnswerArray(answers, |quiz.questions|));
      if r.Err? {
        return;
      }
      results := Some(r.value);
      if r.value.xpEarned > 0 {
        var _ := store.AddXP(r.value.xpEarned, "quiz");
      }
      showResults := true;
    }

    /**
     * `handleNext()`, enabled only once the current question is answered:
     * the next question, or submission on the last one.
     */
    method Next(table: QuizTable, store: Progress.ProgressStore)
      requires Valid() && IsAnswered() && !showResults
      requires table.GetById(quiz.id).Ok? ==> |table.GetById(quiz.id).value.questions| > 0
      modifies this, store
      ensures Valid()
      ensures old(currentQuestion) < |quiz.questions| - 1 ==>
                currentQuestion == old(currentQuestion) + 1 && !showResults && results == old(results)
                && store.Get() == old(store.Get())
      ensures old(currentQuestion) == |quiz.questions| - 1 ==>
                currentQuestion == old(currentQuestion)
                && (table.GetById(quiz.id).Err? ==>
                      !showResults && results == old(results) && store.Get() == old(store.Get()))
                && (table.GetById(quiz.id).Ok? ==>
                      var graded := Grade(table.GetById(quiz.id).value, AnswerArray(old(answers), |quiz.questions|));
                      results == Some(graded) && showResults
                      && store.Get() == (if graded.xpEarned > 0 then Progress.AddXPTo(old(store.Get()), graded.xpEarned, "quiz")
                                         else old(store.Get())))
      ensures answers == old(answers)
    {
      if currentQuestion < |quiz.questions| - 1 {
        currentQuestion := currentQuestion + 1;
      } else {
        Submit(table, store);
      }
    }

    /** `handleRetakeQuiz()`, offered only after a failed attempt: back to a fresh first question. */
    method Retake()
      requires Valid() && showResults && !results.value.passed
      modifies this
      ensures Valid()
      ensures currentQuestion == 0 && answers == map[] && !showResults && results == None
    {
      currentQuestion := 0;
      answers := map[];
      showResults := false;
      results := None;
    }
  }
}
