/**
 * The quiz data service: the in-memory quiz table (lookup by id or lesson,
 * append, merge-update and splice-delete) and quiz scoring.
 */
module QuizService {
  import opened Js

  datatype Question = Question(id: string, correctAnswer: int, explanation: string)

  datatype Quiz = Quiz(
    id: string,
    lessonId: string,
    title: string,
    questions: seq<Question>,
    passingScore: int,
    xpReward: int)

  /** The fields an `updates` object supplies; `None` is an absent key. */
  datatype QuizPatch = QuizPatch(
    id: Option<string>,
    lessonId: Option<string>,
    title: Option<string>,
    questions: Option<seq<Question>>,
    passingScore: Option<int>,
    xpReward: Option<int>)

  /** One entry of `results`: how one question was answered. */
  datatype QuestionResult = QuestionResult(
    questionId: string,
    userAnswer: Option<int>,
    correctAnswer: int,
    isCorrect: bool,
    explanation: string)

  datatype QuizResult = QuizResult(
    quizId: string,
    score: int,
    passed: bool,
    correctAnswers: nat,
    totalQuestions: nat,
    xpEarned: int,
    results: seq<QuestionResult>)

  // ---------------------------------------------------------------------
  // Scoring

  /** `answers[i]`: a missing position reads as `undefined`. */
  function AnswerAt(answers: seq<Option<int>>, i: nat): Option<int>
  {
    if i < |answers| then answers[i] else None
  }

  /** `userAnswer === question.correctAnswer`; `undefined` never matches a number. */
  predicate IsCorrect(q: Question, answer: Option<int>)
  {
    answer == Some(q.correctAnswer)
  }

  /** The number of the first `k` questions answered correctly. */
  function CorrectUpTo(questions: seq<Question>, answers: seq<Option<int>>, k: nat): (c: nat)
    requires k <= |questions|
    ensures c <= k
  {
    if k == 0 then 0
    else
      CorrectUpTo(questions, answers, k - 1)
        + (if IsCorrect(questions[k - 1], AnswerAt(answers, k - 1)) then 1 else 0)
  }

  /** The count is the number of positions below `k` whose answer matches. */
  lemma {:induction false} CorrectUpToCountsMatches(questions: seq<Question>, answers: seq<Option<int>>, k: nat)
    requires k <= |questions|
    ensures CorrectUpTo(questions, answers, k)
            == |set i: nat | i < k && IsCorrect(questions[i], AnswerAt(answers, i))|
  {
    if k > 0 {
      CorrectUpToCountsMatches(questions, answers, k - 1);
      var prev := set i: nat | i < k - 1 && IsCorrect(questions[i], AnswerAt(answers, i));
      var cur := set i: nat | i < k && IsCorrect(questions[i], AnswerAt(answers, i));
      if IsCorrect(questions[k - 1], AnswerAt(answers, k - 1)) {
        assert cur == prev + {k - 1};
      } else {
        assert cur == prev;
      }
    }
  }

  function ResultFor(q: Question, answer: Option<int>): QuestionResult
  {
    QuestionResult(q.id, answer, q.correctAnswer, IsCorrect(q, answer), q.explanation)
  }

  /** The per-question results of the first `k` questions, in question order. */
  function ResultsUpTo(questions: seq<Question>, answers: seq<Option<int>>, k: nat): (rs: seq<QuestionResult>)
    requires k <= |questions|
    ensures |rs| == k
    ensures forall i :: 0 <= i < k ==> rs[i] == ResultFor(questions[i], AnswerAt(answers, i))
  {
    seq(k, i requires 0 <= i < k => ResultFor(questions[i], AnswerAt(answers, i)))
  }

  /** The XP a quiz awards: the full reward on a pass, half of it (floored) otherwise. */
  function XpFor(quiz: Quiz, passed: bool): int
  {
    if passed then quiz.xpReward else quiz.xpReward / 2
  }

  /** What `submitQuiz` returns for a quiz it found. */
  function Grade(quiz: Quiz, answers: seq<Option<int>>): (r: QuizResult)
    requires |quiz.questions| > 0
    ensures r.totalQuestions == |quiz.questions| == |r.results|
    ensures r.quizId == quiz.id && r.correctAnswers <= r.totalQuestions
    ensures r.correctAnswers
            == |set i: nat | i < |quiz.questions| && IsCorrect(quiz.questions[i], AnswerAt(answers, i))|
    ensures forall i :: 0 <= i < |r.results| ==> r.results[i] == ResultFor(quiz.questions[i], AnswerAt(answers, i))
    ensures r.score == RoundDiv(100 * r.correctAnswers, r.totalQuestions)
    ensures 0 <= r.score <= 100
    ensures r.passed <==> r.score >= quiz.passingScore
    ensures r.passed ==> r.xpEarned == quiz.xpReward
    ensures !r.passed ==> r.xpEarned == quiz.xpReward / 2
  {
    var n := |quiz.questions|;
    var correct := CorrectUpTo(quiz.questions, answers, n);
    CorrectUpToCountsMatches(quiz.questions, answers, n);
    var score := Percent(correct, n);
    var passed := score >= quiz.passingScore;
    QuizResult(quiz.id, score, passed, correct, n, XpFor(quiz, passed),
               ResultsUpTo(quiz.questions, answers, n))
  }

  /**
   * The body of `submitQuiz` once the quiz is found: one pass over the
   * questions that counts the correct answers and builds `results`.
   */
  method Score(quiz: Quiz, answers: seq<Option<int>>) returns (result: QuizResult)
    requires |quiz.questions| > 0
    ensures result == Grade(quiz, answers)
  {
    var questions := quiz.questions;
    var correctAnswers := 0;
    var results: seq<QuestionResult> := [];
    var index := 0;
    while index < |questions|
      invariant 0 <= index <= |questions|
      invariant correctAnswers == CorrectUpTo(questions, answers, index)
      invariant results == ResultsUpTo(questions, answers, index)
    {
      var userAnswer := if index < |answers| then answers[index] else None;
      var isCorrect := userAnswer == Some(questions[index].correctAnswer);
      if isCorrect {
        correctAnswers := correctAnswers + 1;
      }
      results := results + [QuestionResult(questions[index].id, userAnswer,
                                           questions[index].correctAnswer, isCorrect,
                                           questions[index].explanation)];
      index := index + 1;
    }
    var n := |questions|;
    var score := RoundDiv(100 * correctAnswers, n);
    var passed := score >= quiz.passingScore;
    result := QuizResult(quiz.id, score, passed, correctAnswers, n,
                         if passed then quiz.xpReward else quiz.xpReward / 2, results);
  }

  predicate ResultIsCorrect(r: QuestionResult)
  {
    r.isCorrect
  }

  /** `correctAnswers` is the number of entries of `results` marked correct. */
  lemma {:induction false} CorrectMatchesResults(questions: seq<Question>, answers: seq<Option<int>>, k: nat)
    requires k <= |questions|
    ensures CorrectUpTo(questions, answers, k) == Count(ResultsUpTo(questions, answers, k), ResultIsCorrect)
  {
    if k > 0 {
      CorrectMatchesResults(questions, answers, k - 1);
      var prev := ResultsUpTo(questions, answers, k - 1);
      var last := ResultFor(questions[k - 1], AnswerAt(answers, k - 1));
      assert ResultsUpTo(questions, answers, k) == prev + [last];
      FilterAppend(prev, [last], ResultIsCorrect);
    }
  }

  /** Two answer sheets that agree on the first `k` positions score the same there. */
  lemma {:induction false} CorrectUpToAgree(questions: seq<Question>, a: seq<Option<int>>, b: seq<Option<int>>, k: nat)
    requires k <= |questions|
    requires forall i :: 0 <= i < k ==> AnswerAt(a, i) == AnswerAt(b, i)
    ensures CorrectUpTo(questions, a, k) == CorrectUpTo(questions, b, k)
  {
    if k > 0 {
      CorrectUpToAgree(questions, a, b, k - 1);
    }
  }

  /**
   * Only the first n answers matter: answers beyond the last question are
   * ignored, and a missing answer is the same as an `undefined` one.
   */
  lemma ExtraAnswersIgnored(quiz: Quiz, a: seq<Option<int>>, b: seq<Option<int>>)
    requires |quiz.questions| > 0
    requires forall i :: 0 <= i < |quiz.questions| ==> AnswerAt(a, i) == AnswerAt(b, i)
    ensures Grade(quiz, a) == Grade(quiz, b)
  {
    var n := |quiz.questions|;
    CorrectUpToAgree(quiz.questions, a, b, n);
    assert ResultsUpTo(quiz.questions, a, n) == ResultsUpTo(quiz.questions, b, n);
  }

  /** An answer sheet that is right wherever `a` is right scores at least as many. */
  lemma {:induction false} CorrectUpToMonotone(questions: seq<Question>, a: seq<Option<int>>, b: seq<Option<int>>, k: nat)
    requires k <= |questions|
    requires forall i :: 0 <= i < k && IsCorrect(questions[i], AnswerAt(a, i)) ==> IsCorrect(questions[i], AnswerAt(b, i))
    ensures CorrectUpTo(questions, a, k) <= CorrectUpTo(questions, b, k)
  {
    if k > 0 {
      CorrectUpToMonotone(questions, a, b, k - 1);
    }
  }

  /** More correct answers never lower the score, never turn a pass into a fail, never lower the XP. */
  lemma GradeMonotone(quiz: Quiz, a: seq<Option<int>>, b: seq<Option<int>>)
    requires |quiz.questions| > 0
    requires quiz.xpReward >= 0
    requires forall i :: 0 <= i < |quiz.questions| && IsCorrect(quiz.questions[i], AnswerAt(a, i))
               ==> IsCorrect(quiz.questions[i], AnswerAt(b, i))
    ensures Grade(quiz, a).score <= Grade(quiz, b).score
    ensures Grade(quiz, a).passed ==> Grade(quiz, b).passed
    ensures Grade(quiz, a).xpEarned <= Grade(quiz, b).xpEarned
  {
    var n := |quiz.questions|;
    CorrectUpToMonotone(quiz.questions, a, b, n);
    var ca, cb := CorrectUpTo(quiz.questions, a, n), CorrectUpTo(quiz.questions, b, n);
    MulMonotone(100, ca, cb);
    RoundDivMonotone(100 * ca, 100 * cb, n);
  }

  /** A larger dividend never rounds to a smaller quotient. */
  lemma RoundDivMonotone(a: int, b: int, d: int)
    requires d > 0 && a <= b
    ensures RoundDiv(a, d) <= RoundDiv(b, d)
  {
    RoundDivQuotient(a, d);
    RoundDivQuotient(b, d);
    var qa, qb := RoundDiv(a, d), RoundDiv(b, d);
    if qa > qb {
      MulMonotone(2 * d, qb + 1, qa);
      assert false;
    }
  }

  /** A perfect answer sheet scores 100 and passes whenever the pass mark is at most 100. */
  lemma {:induction false} AllCorrectScoresFull(quiz: Quiz, answers: seq<Option<int>>)
    requires |quiz.questions| > 0
    requires forall i :: 0 <= i < |quiz.questions| ==> IsCorrect(quiz.questions[i], AnswerAt(answers, i))
    ensures Grade(quiz, answers).correctAnswers == |quiz.questions|
    ensures Grade(quiz, answers).score == 100
    ensures Grade(quiz, answers).passed <==> quiz.passingScore <= 100
  {
    var n := |quiz.questions|;
    AllCorrectCount(quiz.questions, answers, n);
    RoundDivExact(100, n);
    assert 100 * n == n * 100;
  }

  lemma {:induction false} AllCorrectCount(questions: seq<Question>, answers: seq<Option<int>>, k: nat)
    requires k <= |questions|
    requires forall i :: 0 <= i < k ==> IsCorrect(questions[i], AnswerAt(answers, i))
    ensures CorrectUpTo(questions, answers, k) == k
  {
    if k > 0 {
      AllCorrectCount(questions, answers, k - 1);
    }
  }

  /** A five-question quiz with pass mark 70 and reward 50. */
  function SampleQuiz(): Quiz
  {
    Quiz("quiz-1", "lesson-1", "Greetings",
         [Question("q1", 0, ""), Question("q2", 1, ""), Question("q3", 2, ""),
          Question("q4", 3, ""), Question("q5", 0, "")],
         70, 50)
  }

  /** 4 of 5 correct: score 80, passed, 50 XP; 3 of 5: score 60, failed, 25 XP. */
  lemma SampleScores()
    ensures var r := Grade(SampleQuiz(), [Some(0), Some(1), Some(2), Some(3), Some(1)]);
            r.correctAnswers == 4 && r.score == 80 && r.passed && r.xpEarned == 50
    ensures var r := Grade(SampleQuiz(), [Some(0), Some(1), Some(2), None]);
            r.correctAnswers == 3 && r.score == 60 && !r.passed && r.xpEarned == 25
  {
    var qs := SampleQuiz().questions;
    var four := [Some(0), Some(1), Some(2), Some(3), Some(1)];
    var three := [Some(0), Some(1), Some(2), None];
    assert CorrectUpTo(qs, four, 5) == 4 by {
      assert CorrectUpTo(qs, four, 4) == 4 by {
        AllCorrectCount(qs, four, 4);
      }
    }
    assert CorrectUpTo(qs, three, 5) == 3 by {
      assert CorrectUpTo(qs, three, 3) == 3 by {
        AllCorrectCount(qs, three, 3);
      }
    }
  }

  // ---------------------------------------------------------------------
  // The quiz table

  /** `{ ...quiz, ...updates }`: supplied keys win, the others are kept. */
  function Merge(q: Quiz, p: QuizPatch): Quiz
  {
    Quiz(
      if p.id.Some? then p.id.value else q.id,
      if p.lessonId.Some? then p.lessonId.value else q.lessonId,
      if p.title.Some? then p.title.value else q.title,
      if p.questions.Some? then p.questions.value else q.questions,
      if p.passingScore.Some? then p.passingScore.value else q.passingScore,
      if p.xpReward.Some? then p.xpReward.value else q.xpReward)
  }

  /** Applying the same updates twice is the same as applying them once. */
  lemma MergeIdempotent(q: Quiz, p: QuizPatch)
    ensures Merge(Merge(q, p), p) == Merge(q, p)
  {
  }

  /** An update that supplies every key replaces the record, one that supplies none keeps it. */
  lemma MergeExtremes(q: Quiz, r: Quiz)
    ensures Merge(q, QuizPatch(None, None, None, None, None, None)) == q
    ensures Merge(q, QuizPatch(Some(r.id), Some(r.lessonId), Some(r.title), Some(r.questions),
                               Some(r.passingScore), Some(r.xpReward))) == r
  {
  }

  function IdIndex(quizzes: seq<Quiz>, id: string): int
  {
    FindIndex(quizzes, (q: Quiz) => q.id == id)
  }

  class QuizTable {
    /** `quizzesData`, the module-level array the service mutates. */
    var quizzes: seq<Quiz>

    constructor (fixture: seq<Quiz>)
      ensures quizzes == fixture
    {
      quizzes := fixture;
    }

    /** `getById`: the first quiz with that id, or "not found". */
    function GetById(id: string): (r: Result<Quiz>)
      reads this
      ensures r.Err? <==> forall i :: 0 <= i < |quizzes| ==> quizzes[i].id != id
      ensures r.Err? ==> r.error == NotFound("Quiz", id)
      ensures r.Ok? ==> exists i :: 0 <= i < |quizzes| && quizzes[i] == r.value && r.value.id == id
                          && forall j :: 0 <= j < i ==> quizzes[j].id != id
    {
      var i := IdIndex(quizzes, id);
      if i < 0 then Err(NotFound("Quiz", id)) else Ok(quizzes[i])
    }

    /** `getByLessonId`: the first quiz of that lesson, or "not found". */
    function GetByLessonId(lessonId: string): (r: Result<Quiz>)
      reads this
      ensures r.Err? <==> forall i :: 0 <= i < |quizzes| ==> quizzes[i].lessonId != lessonId
      ensures r.Err? ==> r.error == NotFound("Quiz for lesson", lessonId)
      ensures r.Ok? ==> exists i :: 0 <= i < |quizzes| && quizzes[i] == r.value && r.value.lessonId == lessonId
                          && forall j :: 0 <= j < i ==> quizzes[j].lessonId != lessonId
    {
      var i := FindIndex(quizzes, (q: Quiz) => q.lessonId == lessonId);
      if i < 0 then Err(NotFound("Quiz for lesson", lessonId)) else Ok(quizzes[i])
    }

    /**
     * `submitQuiz`: an unknown id raises "not found" and grades nothing;
     * otherwise the found quiz is graded. A quiz without questions would
     * score NaN, so the found quiz must have at least one.
     */
    method SubmitQuiz(quizId: string, answers: seq<Option<int>>) returns (r: Result<QuizResult>)
      requires GetById(quizId).Ok? ==> |GetById(quizId).value.questions| > 0
      ensures GetById(quizId).Err? ==> r == Err(NotFound("Quiz", quizId))
      ensures GetById(quizId).Ok? ==> r == Ok(Grade(GetById(quizId).value, answers))
    {
      var found := GetById(quizId);
      if found.Err? {
        return Err(found.error);
      }
      var result := Score(found.value, answers);
      return Ok(result);
    }

    /** `create`: appends the record under a fresh `quiz-<now>` id. */
    method Create(data: Quiz, now: nat) returns (created: Quiz)
      modifies this
      ensures created == data.(id := "quiz-" + NatToString(now))
      ensures quizzes == old(quizzes) + [created]
    {
      created := data.(id := "quiz-" + NatToString(now));
      quizzes := quizzes + [created];
    }

    /** `update`: merges `updates` into the matching record only. */
    method Update(id: string, updates: QuizPatch) returns (r: Result<Quiz>)
      modifies this
      ensures var i := IdIndex(old(quizzes), id);
              if i < 0 then r == Err(NotFound("Quiz", id)) && quizzes == old(quizzes)
              else r == Ok(Merge(old(quizzes)[i], updates)) && quizzes == old(quizzes)[i := r.value]
    {
      var i := IdIndex(quizzes, id);
      if i < 0 {
        return Err(NotFound("Quiz", id));
      }
      quizzes := quizzes[i := Merge(quizzes[i], updates)];
      r := Ok(quizzes[i]);
    }

    /** `delete`: splices out the matching record. */
    method Delete(id: string) returns (r: Result<bool>)
      modifies this
      ensures var i := IdIndex(old(quizzes), id);
              if i < 0 then r == Err(NotFound("Quiz", id)) && quizzes == old(quizzes)
              else r == Ok(true) && quizzes == RemoveAt(old(quizzes), i)
    {
      var i := IdIndex(quizzes, id);
      if i < 0 {
        return Err(NotFound("Quiz", id));
      }
      quizzes := RemoveAt(quizzes, i);
      r := Ok(true);
    }
  }
}
